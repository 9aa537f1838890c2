/** The outcome record that every rule produces. */
module ValidateResults {
  import opened Wrappers

  datatype Status = OK | WARN | ERROR

  /**
   * A percentage as the exact quotient `num / den`. The source computes these in
   * floating point; `Ratio(100, 1)` is its `100.0` and `Ratio(0, 1)` its literal `0`.
   */
  datatype Ratio = Ratio(num: int, den: int)

  const Full := Ratio(100, 1)
  const Nought := Ratio(0, 1)

  /** `a / b * 100.0`, which raises ZeroDivisionError when `b` is zero. */
  function PercentOf(a: int, b: int): (r: Result<Ratio>)
    ensures r.Err? <==> b == 0
    ensures r.Err? ==> r.error == ZeroDivisionError
    ensures r.Ok? ==> r.value.den == b && r.value.num == 100 * a
  {
    if b == 0 then Err(ZeroDivisionError) else Ok(Ratio(100 * a, b))
  }

  datatype ValidateResult = ValidateResult(
    status: Status,
    percentage: Option<Ratio>,
    message: string,
    relevant: seq<string>,
    part: Option<string>)

  /** The shape every passing rule without a message returns: `OK`, `100.0`, `""`, `[]`. */
  function Passed(part: Option<string>): (r: ValidateResult)
    ensures r.status == OK && r.relevant == [] && r.part == part
  {
    ValidateResult(OK, Some(Full), "", [], part)
  }
}
