/**
 * The answers the intake dialogue collects. The source keeps them in a plain
 * object whose keys are the eight slot names below; an absent key reads as
 * `undefined`.
 */
module CollectedData {

  datatype Field =
    | Name | Sector | CostCenter | Phone | Email | Patrimony
    | ProblemType | ProblemDescription

  /** The answer object: a slot is set when its key is present. */
  type Data = map<Field, string>

  /** JavaScript truthiness of `data.f`: set, and not the empty string. */
  predicate Given(data: Data, f: Field) {
    f in data && data[f] != ""
  }

  /** `data.f || fallback`. */
  function OrElse(data: Data, f: Field, fallback: string): (r: string)
    ensures Given(data, f) ==> r == data[f]
    ensures !Given(data, f) ==> r == fallback
    ensures r != [] <==> Given(data, f) || fallback != []
  {
    if Given(data, f) then data[f] else fallback
  }

  /** `${data.f}` inside a template literal: the text, or "undefined" for an unset slot. */
  function Render(data: Data, f: Field): string {
    if f in data then data[f] else "undefined"
  }
}
