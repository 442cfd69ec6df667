/** Turning a list of strings into the `{ title, value }` options a select input shows. */
module OptionArray {

  datatype SelectOption = SelectOption(title: string, value: string)

  /** `transformToOptionArray`: one option per string, titled and valued by it, in order. */
  function TransformToOptionArray(arr: seq<string>): (r: seq<SelectOption>)
    ensures |r| == |arr|
    ensures forall i :: 0 <= i < |arr| ==> r[i].title == arr[i] && r[i].value == arr[i]
  {
    if arr == [] then [] else [SelectOption(arr[0], arr[0])] + TransformToOptionArray(arr[1..])
  }

  /** Mapping a concatenation gives the concatenation of the mappings: order is kept. */
  lemma TransformConcat(a: seq<string>, b: seq<string>)
    ensures TransformToOptionArray(a + b) == TransformToOptionArray(a) + TransformToOptionArray(b)
  {
    var whole := TransformToOptionArray(a + b);
    var parts := TransformToOptionArray(a) + TransformToOptionArray(b);
    forall i | 0 <= i < |whole| ensures whole[i] == parts[i] {
      if i < |a| {
        assert (a + b)[i] == a[i];
      } else {
        assert (a + b)[i] == b[i - |a|];
      }
    }
  }

  /** The titles (and, equally, the values) read back the input. */
  lemma TitlesReadBack(arr: seq<string>)
    ensures seq(|arr|, i requires 0 <= i < |arr| => TransformToOptionArray(arr)[i].title) == arr
    ensures seq(|arr|, i requires 0 <= i < |arr| => TransformToOptionArray(arr)[i].value) == arr
  {
  }
}
