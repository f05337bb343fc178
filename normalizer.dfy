/** The command-line schema list, whose entries the argument parser may hand over as strings or numbers. */
module Normalizer {
  import opened Decimal

  /** One entry of the parsed `--schemas` list. */
  datatype StrOrInt = Str(s: string) | Num(n: int)

  /** A string entry is kept verbatim; a numeric one becomes its decimal text. */
  function EntryString(e: StrOrInt): (r: string)
    ensures e.Str? ==> r == e.s
    ensures e.Num? ==> |r| >= 1 && r == IntToDecimal(e.n)
  {
    match e
    case Str(s) => s
    case Num(n) => IntToDecimal(n)
  }

  /** The result of the `reduce`: entry by entry, the converted entries in the same order. */
  function Normalized(items: seq<StrOrInt>): (r: seq<string>)
    ensures |r| == |items|
    ensures forall i :: 0 <= i < |items| ==> r[i] == EntryString(items[i])
  {
    if items == [] then [] else Normalized(items[..|items| - 1]) + [EntryString(items[|items| - 1])]
  }

  /** The `reduce` itself: each converted entry is pushed onto the accumulator in turn. */
  method Normalize(items: seq<StrOrInt>) returns (acc: seq<string>)
    ensures |acc| == |items|
    ensures forall i :: 0 <= i < |items| ==> acc[i] == EntryString(items[i])
  {
    acc := [];
    var i := 0;
    while i < |items|
      invariant 0 <= i <= |items|
      invariant |acc| == i
      invariant forall k :: 0 <= k < i ==> acc[k] == EntryString(items[k])
    {
      var schema := items[i];
      if schema.Str? {
        acc := acc + [schema.s];
      } else {
        acc := acc + [IntToDecimal(schema.n)];
      }
      i := i + 1;
    }
  }

  /** Normalizing a concatenation normalizes each part: nothing is dropped, merged or reordered. */
  lemma NormalizedAppend(a: seq<StrOrInt>, b: seq<StrOrInt>)
    ensures Normalized(a + b) == Normalized(a) + Normalized(b)
  {
  }

  /** A list of strings only is passed through unchanged. */
  lemma NormalizedStrings(items: seq<StrOrInt>, names: seq<string>)
    requires |items| == |names|
    requires forall i :: 0 <= i < |items| ==> items[i] == Str(names[i])
    ensures Normalized(items) == names
  {
  }

  /** Distinct numbers stay distinct after conversion, so no two numeric entries collapse into one name. */
  lemma NormalizedKeepsNumbersApart(items: seq<StrOrInt>, i: nat, j: nat)
    requires i < |items| && j < |items|
    requires items[i].Num? && items[j].Num? && items[i].n != items[j].n
    ensures Normalized(items)[i] != Normalized(items)[j]
  {
    if Normalized(items)[i] == Normalized(items)[j] {
      IntToDecimalInjective(items[i].n, items[j].n);
    }
  }

  /** A numeric entry reads back as the number it was. */
  lemma NormalizedNumberReadsBack(items: seq<StrOrInt>, i: nat)
    requires i < |items| && items[i].Num?
    ensures |Normalized(items)[i]| >= 1
    ensures DecimalValue(Normalized(items)[i]) == items[i].n
  {
    IntDecimalRoundTrip(items[i].n);
  }

  /** A mixed list: `["public", 2, "audit"]` becomes `["public", "2", "audit"]`. */
  lemma NormalizedMixedExample()
    ensures Normalized([Str("public"), Num(2), Str("audit")]) == ["public", "2", "audit"]
  {
  }
}
