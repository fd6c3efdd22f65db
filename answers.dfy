/**
 The categorical answers the generator's rules branch on, and the uniform draws that decide
 them. A draw of `random.random()` compared against a probability in hundredths is a `Percent`
 (the floor of 100 times the uniform value); one compared against thousandths is a `Permille`.
 */
module Answers {

  /** The "Yes"/"No" answers of Uses_Fitness_App, Subscribed_Premium and
      Interested_In_Group_Challenges. */
  datatype YesNo = Yes | No {
    function Text(): (s: string)
      ensures s == "Yes" <==> this == Yes
      ensures s == "No" <==> this == No
    {
      match this
      case Yes => "Yes"
      case No => "No"
    }
  }

  /** App_Usage_Frequency, in the order of its option list (app.py:86). */
  datatype Frequency = Daily | Weekly | Monthly | Rarely | Never {
    function Text(): (s: string) {
      match this
      case Daily => "Daily"
      case Weekly => "Weekly"
      case Monthly => "Monthly"
      case Rarely => "Rarely"
      case Never => "Never"
    }
  }

  type Percent = x: int | 0 <= x < 100
  type Permille = x: int | 0 <= x < 1000
}
