/** A student's plan as the rules see it, and the course lookup they are given. */
module Plans {
  import opened Wrappers
  import opened PyDict
  import Seqs

  datatype Plan = Plan(
    name: string,
    courseDates: Dict<(int, int), seq<string>>,
    courseReqs: Dict<string, seq<string>>,
    courses: seq<string>,
    degree: string,
    specialisations: Dict<string, seq<string>>)

  /**
   * The course lookup: the number of units of a course, or None when the course
   * is unknown. The source awaits an asynchronous database query here.
   */
  type CourseLookup = string -> Option<nat>

  /** `course_model.num_units if course_model else 0`. */
  function UnitsOf(lookup: CourseLookup, code: string): nat {
    match lookup(code)
    case Some(u) => u
    case None => 0
  }

  /** The units of a list of courses, each looked up in turn. */
  function TotalUnits(lookup: CourseLookup, cs: seq<string>): nat {
    if cs == [] then 0 else TotalUnits(lookup, cs[..|cs| - 1]) + UnitsOf(lookup, cs[|cs| - 1])
  }

  /** `plan.specialisations.get(part, [])`. */
  function ChosenUnder(plan: Plan, part: string): seq<string> {
    GetOr(plan.specialisations, part, [])
  }

  /** Every chosen specialisation code, across all parts, in dict order. */
  function AllChosen(plan: Plan): seq<string> {
    Seqs.Flatten(Values(plan.specialisations))
  }

  lemma {:induction false} AllChosenMember(plan: Plan, code: string)
    ensures code in AllChosen(plan) <==>
      exists i :: 0 <= i < |plan.specialisations| && code in plan.specialisations[i].1
  {
    Seqs.FlattenMember(Values(plan.specialisations), code);
  }
}
