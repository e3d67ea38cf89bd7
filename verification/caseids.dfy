/** The case identifier of a gold file name: `'_'.join(name.split('_')[6:])`,
    everything after the sixth underscore. */
module CaseIds {

  const Separator := '_'

  /** Index of the first field kept in the identifier. */
  const FirstIdField := 6

  /** Number of separators in `s`. */
  function Separators(s: string): nat {
    if |s| == 0 then 0 else (if s[0] == Separator then 1 else 0) + Separators(s[1..])
  }

  lemma {:induction false} SeparatorsConcat(a: string, b: string)
    ensures Separators(a + b) == Separators(a) + Separators(b)
  {
    if |a| > 0 {
      assert (a + b)[0] == a[0];
      assert (a + b)[1..] == a[1..] + b;
      SeparatorsConcat(a[1..], b);
    } else {
      assert a + b == b;
    }
  }

  lemma {:induction false} NoSeparators(s: string)
    ensures Separators(s) == 0 <==> Separator !in s
  {
    if |s| > 0 {
      NoSeparators(s[1..]);
      assert s == [s[0]] + s[1..];
    }
  }

  /** Position of the first separator. */
  function FirstSeparator(s: string): (i: nat)
    requires Separator in s
    ensures i < |s| && s[i] == Separator && Separator !in s[..i]
  {
    if s[0] == Separator then 0
    else
      assert Separator in s[1..] by { assert s == [s[0]] + s[1..]; }
      var j := FirstSeparator(s[1..]);
      assert s[..j + 1] == [s[0]] + s[1..][..j];
      j + 1
  }

  /** Python's `s.split('_')`: the fields between separators, empty ones
      included; a string without separators is a single field. */
  function Split(s: string): (parts: seq<string>)
    ensures |parts| == Separators(s) + 1
    ensures forall k :: 0 <= k < |parts| ==> Separator !in parts[k]
    decreases |s|
  {
    if Separator !in s then
      NoSeparators(s);
      [s]
    else
      var i := FirstSeparator(s);
      assert s == s[..i] + [s[i]] + s[i + 1..];
      SeparatorsConcat(s[..i] + [s[i]], s[i + 1..]);
      SeparatorsConcat(s[..i], [s[i]]);
      NoSeparators(s[..i]);
      [s[..i]] + Split(s[i + 1..])
  }

  /** Python's `'_'.join(parts)`. */
  function Join(parts: seq<string>): string {
    if |parts| == 0 then ""
    else if |parts| == 1 then parts[0]
    else parts[0] + [Separator] + Join(parts[1..])
  }

  /** Python's slice `parts[k:]`, empty when `k` is past the end. */
  function Drop(parts: seq<string>, k: nat): seq<string> {
    if k >= |parts| then [] else parts[k..]
  }

  function CaseId(goldName: string): string {
    Join(Drop(Split(goldName), FirstIdField))
  }

  /** Joining the fields of a split restores the string. */
  lemma {:induction false} JoinSplit(s: string)
    ensures Join(Split(s)) == s
    decreases |s|
  {
    if Separator in s {
      var i := FirstSeparator(s);
      JoinSplit(s[i + 1..]);
      assert s == s[..i] + [s[i]] + s[i + 1..];
    }
  }

  lemma {:induction false} FirstSeparatorAfterField(field: string, rest: string)
    requires Separator !in field
    ensures Separator in field + [Separator] + rest
    ensures FirstSeparator(field + [Separator] + rest) == |field|
  {
    var s := field + [Separator] + rest;
    assert s[|field|] == Separator;
  }

  /** A separator-free first field splits off on its own. */
  lemma SplitCons(field: string, rest: string)
    requires Separator !in field
    ensures Split(field + [Separator] + rest) == [field] + Split(rest)
  {
    var s := field + [Separator] + rest;
    FirstSeparatorAfterField(field, rest);
    assert s[..|field|] == field;
    assert s[|field| + 1..] == rest;
  }

  /** Splitting the join of separator-free fields gives the fields back. */
  lemma {:induction false} SplitJoin(parts: seq<string>)
    requires |parts| >= 1
    requires forall k :: 0 <= k < |parts| ==> Separator !in parts[k]
    ensures Split(Join(parts)) == parts
  {
    if |parts| > 1 {
      TailFieldsFree(parts);
      SplitJoin(parts[1..]);
      SplitJoinStep(parts);
    }
  }

  lemma TailFieldsFree(parts: seq<string>)
    requires |parts| >= 1
    requires forall k :: 0 <= k < |parts| ==> Separator !in parts[k]
    ensures forall k :: 0 <= k < |parts[1..]| ==> Separator !in parts[1..][k]
  {
    forall k | 0 <= k < |parts[1..]| ensures Separator !in parts[1..][k] {
      assert parts[1..][k] == parts[k + 1];
    }
  }

  lemma SplitJoinStep(parts: seq<string>)
    requires |parts| > 1 && Separator !in parts[0]
    requires Split(Join(parts[1..])) == parts[1..]
    ensures Split(Join(parts)) == parts
  {
    var tail := parts[1..];
    assert Join(parts) == parts[0] + [Separator] + Join(tail);
    SplitCons(parts[0], Join(tail));
    assert parts == [parts[0]] + tail;
  }

  /** The fields of a file name up to and including each field's trailing
      separator: `f0_f1_..._fk_`. */
  function FieldPrefix(fields: seq<string>): string {
    if |fields| == 0 then "" else fields[0] + [Separator] + FieldPrefix(fields[1..])
  }

  /** A gold file name with at least six separators is its first six
      fields, each followed by a separator, and then the case identifier;
      with fewer separators the identifier is empty. */
  lemma CaseIdIsSuffix(goldName: string)
    ensures Separators(goldName) < FirstIdField ==> CaseId(goldName) == ""
    ensures Separators(goldName) >= FirstIdField ==>
              var head := FieldPrefix(Split(goldName)[..FirstIdField]);
              && goldName == head + CaseId(goldName)
              && Separators(head) == FirstIdField
              && |head| > 0 && head[|head| - 1] == Separator
  {
    if Separators(goldName) >= FirstIdField {
      var parts := Split(goldName);
      JoinSplit(goldName);
      JoinPrefix(parts, FirstIdField);
      FieldPrefixSeparators(parts[..FirstIdField]);
    }
  }

  /** A join splits after its first `k` fields. */
  lemma {:induction false} JoinPrefix(parts: seq<string>, k: nat)
    requires k < |parts|
    ensures Join(parts) == FieldPrefix(parts[..k]) + Join(parts[k..])
  {
    if k > 0 {
      JoinPrefix(parts[1..], k - 1);
      assert parts[..k][1..] == parts[1..][..k - 1];
      assert parts[1..][k - 1..] == parts[k..];
    } else {
      assert parts[k..] == parts;
    }
  }

  /** Separator-free fields with a separator after each: one separator per
      field, the last character being a separator. */
  lemma {:induction false} FieldPrefixSeparators(fields: seq<string>)
    requires forall k :: 0 <= k < |fields| ==> Separator !in fields[k]
    ensures Separators(FieldPrefix(fields)) == |fields|
    ensures |fields| > 0 ==> |FieldPrefix(fields)| > 0 && FieldPrefix(fields)[|FieldPrefix(fields)| - 1] == Separator
  {
    if |fields| > 0 {
      var tail := fields[1..];
      assert forall k :: 0 <= k < |tail| ==> Separator !in tail[k] by {
        forall k | 0 <= k < |tail| ensures Separator !in tail[k] {
          assert tail[k] == fields[k + 1];
        }
      }
      FieldPrefixSeparators(tail);
      NoSeparators(fields[0]);
      SeparatorsConcat(fields[0], [Separator]);
      SeparatorsConcat(fields[0] + [Separator], FieldPrefix(tail));
      assert Separators([Separator]) == 1;
    }
  }

  lemma ConsConcat<T>(xs: seq<T>, ys: seq<T>)
    requires |xs| > 0
    ensures xs + ys == [xs[0]] + (xs[1..] + ys)
  {
  }

  lemma {:induction false} SplitAfterFields(fields: seq<string>, rest: string)
    requires forall k :: 0 <= k < |fields| ==> Separator !in fields[k]
    ensures Split(FieldPrefix(fields) + rest) == fields + Split(rest)
  {
    if |fields| == 0 {
      assert FieldPrefix(fields) + rest == rest;
    } else {
      var tail := FieldPrefix(fields[1..]) + rest;
      assert FieldPrefix(fields) + rest == fields[0] + [Separator] + tail;
      assert Separator !in fields[0];
      SplitCons(fields[0], tail);
      assert forall k :: 0 <= k < |fields[1..]| ==> Separator !in fields[1..][k] by {
        forall k | 0 <= k < |fields[1..]| ensures Separator !in fields[1..][k] {
          assert fields[1..][k] == fields[k + 1];
        }
      }
      SplitAfterFields(fields[1..], rest);
      ConsConcat(fields, Split(rest));
    }
  }

  /** A gold file name made of six separator-free fields followed by any
      text has that text as its case identifier, underscores included. */
  lemma CaseIdAfterSixFields(fields: seq<string>, id: string)
    requires |fields| == FirstIdField
    requires forall k :: 0 <= k < |fields| ==> Separator !in fields[k]
    ensures CaseId(FieldPrefix(fields) + id) == id
  {
    SplitAfterFields(fields, id);
    var parts := fields + Split(id);
    assert Drop(parts, FirstIdField) == Split(id);
    JoinSplit(id);
  }
}
