/**
 * Combining the per-form outcomes into the form list. Every form is parsed;
 * the result is either one record per input form, in input order, or an
 * error, in which case no document is produced. When several forms fail,
 * the error of the form that comes first in the input is reported.
 */
module FormList {
  import opened Wrappers
  import opened FormParser

  /** The records of all outcomes, in order, or the first error among them. */
  function Combine<T(==), E(==)>(rs: seq<Result<T, E>>): (r: Result<seq<T>, E>)
    ensures r.Ok? <==> forall i :: 0 <= i < |rs| ==> rs[i].Ok?
    ensures r.Ok? ==> |r.value| == |rs| && forall i :: 0 <= i < |rs| ==> rs[i] == Ok(r.value[i])
    ensures r.Err? ==> exists i :: 0 <= i < |rs| && rs[i] == Err(r.error) && forall k :: 0 <= k < i ==> rs[k].Ok?
  {
    if rs == [] then Ok([])
    else
      assert forall i :: 1 <= i < |rs| ==> rs[i] == rs[1..][i - 1];
      match rs[0]
      case Err(e) => Err(e)
      case Ok(v) =>
        match Combine(rs[1..])
        case Ok(vs) => Ok([v] + vs)
        case Err(e) => Err(e)
  }

  /**
   * Builds the list of form records: each form is parsed in turn and the
   * outcomes are combined.
   */
  method CreateFormList(cfg: Config, md5Hex: seq<bv8> -> string, forms: seq<FormInput>)
    returns (r: Result<seq<FormMeta>, ParseError>)
    ensures r.Ok? <==> forall i :: 0 <= i < |forms| ==> Outcome(cfg, md5Hex, forms[i]).Ok?
    ensures r.Ok? ==> |r.value| == |forms|
    ensures r.Ok? ==> forall i :: 0 <= i < |forms| ==> Outcome(cfg, md5Hex, forms[i]) == Ok(r.value[i])
    ensures r.Err? ==> exists i :: 0 <= i < |forms| && Outcome(cfg, md5Hex, forms[i]) == Err(r.error)
                         && forall k :: 0 <= k < i ==> Outcome(cfg, md5Hex, forms[k]).Ok?
  {
    var outcomes: seq<Result<FormMeta, ParseError>> := [];
    var i := 0;
    while i < |forms|
      invariant 0 <= i <= |forms|
      invariant |outcomes| == i
      invariant forall k :: 0 <= k < i ==> outcomes[k] == Outcome(cfg, md5Hex, forms[k])
    {
      var outcome := ParseForm(cfg, md5Hex, forms[i]);
      outcomes := outcomes + [outcome];
      i := i + 1;
    }
    r := Combine(outcomes);
  }
}
