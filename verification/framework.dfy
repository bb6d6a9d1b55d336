/** The slice of the plugin framework the resources touch: nullable attribute
    values, the decoding of string-list elements, and error diagnostics. */
module Framework {
  import opened Wrappers

  /** A framework attribute value: `types.String`, `types.Bool` or `types.List`,
      either null or known. */
  datatype Tf<+T> = Null | Known(v: T)

  /** `types.String.ValueString()`: a null string reads as "". */
  function ValueString(s: Tf<string>): string {
    if s.Known? then s.v else ""
  }

  /** `types.Bool.ValueBool()`: a null bool reads as false. */
  function ValueBool(b: Tf<bool>): bool {
    b.Known? && b.v
  }

  /** `types.String.ValueStringPointer()`: nil for a null string. */
  function ValueStringPointer(s: Tf<string>): Option<string> {
    if s.Known? then Some(s.v) else None
  }

  /** `types.String.String()`, as diagnostics print it: the quoted value, or
      "<null>". */
  function Display(s: Tf<string>): string {
    if s.Known? then "\"" + s.v + "\"" else "<null>"
  }

  /** One element of a string list as the resources read it: the element's
      `ToTerraformValue` can fail, and so can its `As(&str)` conversion. */
  datatype Elem = Str(s: string) | NoTerraformValue(err: string) | NotAString(err: string)

  /** `types.List.Elements()`: a null list has no elements. */
  function Elements(l: Tf<seq<Elem>>): seq<Elem> {
    if l.Known? then l.v else []
  }

  /** `types.ListValue(types.StringType, …)` over plain strings. */
  function StrList(ss: seq<string>): (r: seq<Elem>)
    ensures |r| == |ss|
    ensures forall i :: 0 <= i < |ss| ==> r[i] == Str(ss[i])
  {
    seq(|ss|, i requires 0 <= i < |ss| => Str(ss[i]))
  }

  datatype Diagnostic = Diagnostic(summary: string, detail: string)

  /** The diagnostic the element loops add for an element that does not
      convert; `noun` is "member", "channel" or "user". */
  function ConversionError(e: Elem, noun: string): Diagnostic
    requires !e.Str?
  {
    match e
    case NoTerraformValue(err) => Diagnostic("failed to convert " + noun + " to terraform value", err)
    case NotAString(err) => Diagnostic("failed to convert " + noun + " to string", err)
  }

  datatype Decoded = Decoded(values: seq<string>) | DecodeError(diag: Diagnostic)

  predicate AllStrings(elems: seq<Elem>) {
    forall i :: 0 <= i < |elems| ==> elems[i].Str?
  }

  /** The position of the first element that is not a string. */
  function FirstBad(elems: seq<Elem>): (k: nat)
    requires !AllStrings(elems)
    ensures k < |elems| && !elems[k].Str?
    ensures AllStrings(elems[..k])
    decreases |elems|
  {
    if !elems[0].Str? then 0
    else
      assert !AllStrings(elems[1..]) by {
        var i :| 0 <= i < |elems| && !elems[i].Str?;
        assert elems[1..][i - 1] == elems[i];
      }
      var k := FirstBad(elems[1..]);
      assert elems[..k + 1] == [elems[0]] + elems[1..][..k];
      k + 1
  }

  /** The `for _, x := range l.Elements()` conversion loop: the strings in
      order, or the diagnostic of the first element that fails. */
  function DecodeStrings(elems: seq<Elem>, noun: string): (r: Decoded)
    ensures r.Decoded? <==> AllStrings(elems)
    ensures r.Decoded? ==> |r.values| == |elems|
    ensures r.Decoded? ==> forall i :: 0 <= i < |elems| ==> r.values[i] == elems[i].s
    ensures r.DecodeError? ==> r.diag == ConversionError(elems[FirstBad(elems)], noun)
    decreases |elems|
  {
    if |elems| == 0 then Decoded([])
    else if !elems[0].Str? then DecodeError(ConversionError(elems[0], noun))
    else
      match DecodeStrings(elems[1..], noun)
      case Decoded(rest) =>
        assert forall i :: 1 <= i < |elems| ==> elems[i] == elems[1..][i - 1];
        Decoded([elems[0].s] + rest)
      case DecodeError(d) => DecodeError(d)
  }

  /** A list built from strings decodes back to the same strings. */
  lemma DecodeStrList(ss: seq<string>, noun: string)
    ensures DecodeStrings(StrList(ss), noun) == Decoded(ss)
  {
  }
}
