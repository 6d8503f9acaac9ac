/**
 * Pieces every renderer shares: concatenating written segments, quoting,
 * and the context loop (collect the keys, `sort.Strings` them, write the
 * first `key:value`, then `,` before every further one).
 */
module Render {
  import opened Wrappers
  import Text

  /** Everything written by a sequence of writes, in order. */
  function Concat(parts: seq<string>): (r: string)
    ensures |parts| == 0 ==> r == ""
  {
    if |parts| == 0 then "" else parts[0] + Concat(parts[1..])
  }

  lemma {:induction false} ConcatSnoc(parts: seq<string>, x: string)
    ensures Concat(parts + [x]) == Concat(parts) + x
  {
    if |parts| > 0 {
      assert (parts + [x])[1..] == parts[1..] + [x];
      ConcatSnoc(parts[1..], x);
    }
  }

  /** The loop that writes a non-empty list: the first item, then `,` and each further item. */
  method WriteJoined(items: seq<string>) returns (out: string)
    requires |items| > 0
    ensures out == Text.Join(items, ",")
  {
    out := items[0];
    assert items[..1] == [items[0]];
    for i := 1 to |items|
      invariant out == Text.Join(items[..i], ",")
    {
      Text.JoinSnoc(items[..i], items[i], ",");
      assert items[..i + 1] == items[..i] + [items[i]];
      out := out + "," + items[i];
    }
    assert items[..|items|] == items;
  }

  /** Each item wrapped in double quotes. */
  function QuoteAll(items: seq<string>): (r: seq<string>)
    ensures |r| == |items| && forall i :: 0 <= i < |items| ==> r[i] == Quote(items[i])
  {
    seq(|items|, i requires 0 <= i < |items| => Quote(items[i]))
  }

  /** Regrouping four consecutive writes. */
  lemma Assoc(a: string, b: string, c: string, d: string)
    ensures a + b + c + d == a + (b + c + d)
  {
  }

  /** `"` + s + `"`. */
  function Quote(s: string): (r: string)
    ensures |r| == |s| + 2 && r[0] == '"' && r[|r| - 1] == '"'
  {
    "\"" + s + "\""
  }

  /** One context entry: `%s:%v`, or `"%s":"%v"` when quoted. */
  function Pair(k: string, v: string, quoted: bool): (r: string)
    ensures !quoted ==> r == k + ":" + v
    ensures quoted ==> r == Quote(k) + ":" + Quote(v)
  {
    if quoted then Quote(k) + ":" + Quote(v) else k + ":" + v
  }

  /** The entries of `ctx` for `keys`, in that order. */
  function Pairs(keys: seq<string>, ctx: map<string, string>, quoted: bool): (r: seq<string>)
    requires forall i :: 0 <= i < |keys| ==> keys[i] in ctx
    ensures |r| == |keys|
    ensures forall i :: 0 <= i < |keys| ==> r[i] == Pair(keys[i], ctx[keys[i]], quoted)
  {
    seq(|keys|, i requires 0 <= i < |keys| => Pair(keys[i], ctx[keys[i]], quoted))
  }

  /** The body of a rendered context: its entries in sorted key order, separated by commas. */
  ghost function CtxBody(ctx: map<string, string>, quoted: bool): string
  {
    Text.Join(Pairs(Text.SortedSeq(ctx.Keys), ctx, quoted), ",")
  }

  /** The loop that writes a non-empty context, in sorted key order whatever order the map iterates in. */
  method WriteCtxBody(ctx: map<string, string>, quoted: bool) returns (out: string)
    requires |ctx| > 0
    ensures out == CtxBody(ctx, quoted)
  {
    var keys := Text.SortKeys(ctx);
    assert forall i :: 0 <= i < |keys| ==> keys[i] in ctx;
    ghost var ps := Pairs(keys, ctx, quoted);
    out := Pair(keys[0], ctx[keys[0]], quoted);
    assert ps[..1] == [ps[0]];
    for i := 1 to |keys|
      invariant out == Text.Join(ps[..i], ",")
    {
      Text.JoinPrefixStep(ps, i, ",");
      out := out + "," + Pair(keys[i], ctx[keys[i]], quoted);
    }
    assert ps[..|keys|] == ps;
  }

  /** A context with a single entry renders as that entry. */
  lemma CtxBodySingle(k: string, v: string, quoted: bool)
    ensures CtxBody(map[k := v], quoted) == Pair(k, v, quoted)
  {
    var keys := Text.SortedSeq(map[k := v].Keys);
    assert keys[0] in map[k := v].Keys;
  }

  /** Two keys render in Go string order, whichever way round they were inserted. */
  lemma CtxBodyTwo(k1: string, v1: string, k2: string, v2: string, quoted: bool)
    requires Text.Less(k1, k2)
    ensures CtxBody(map[k1 := v1, k2 := v2], quoted) == Pair(k1, v1, quoted) + "," + Pair(k2, v2, quoted)
    ensures CtxBody(map[k2 := v2, k1 := v1], quoted) == Pair(k1, v1, quoted) + "," + Pair(k2, v2, quoted)
  {
    Text.LessIrreflexive(k1);
    var m := map[k1 := v1, k2 := v2];
    assert m == map[k2 := v2, k1 := v1];
    var keys := Text.SortedSeq(m.Keys);
    assert Text.StrictlySorted([k1, k2]);
    Text.SortedUnique(keys, [k1, k2]);
  }

  /** `"count":<n>,` */
  function CountKey(n: nat): string
  {
    "\"count\":" + Text.Itoa(n) + ","
  }

  /** `"messages":[<m1>,<m2>,...]` */
  function MessagesKey(texts: seq<string>): string
  {
    "\"messages\":[" + Text.Join(texts, ",") + "]"
  }

  const MultilinePrefix := "the following errors occurred:"

  /** `\t#<n> <text>\n` for a non-nil error at position `n`, nothing for a nil one. */
  function NumberedLine(n: nat, x: Option<string>): (r: string)
    ensures x.None? ==> r == ""
  {
    match x
    case None => ""
    case Some(t) => "\t#" + Text.Itoa(n) + " " + t + "\n"
  }

  /**
   * What the numbered loop has written after the entries `es`: the prefix
   * line, then one numbered line per non-nil entry; a nil entry is skipped
   * but still uses up its number.
   */
  function NumberedBody(es: seq<Option<string>>): (r: string)
    ensures |r| > 0
  {
    if |es| == 0 then MultilinePrefix + "\n" else NumberedBody(es[..|es| - 1]) + NumberedLine(|es|, es[|es| - 1])
  }

  /** One more entry adds its numbered line (or nothing) at the end. */
  lemma NumberedStep(es: seq<Option<string>>, i: nat)
    requires i < |es|
    ensures NumberedBody(es[..i + 1]) == NumberedBody(es[..i]) + NumberedLine(i + 1, es[i])
  {
    assert es[..i + 1][..i] == es[..i];
  }

  /** The numbered multi-error rendering: nothing for no entries, else the prefix line and the numbered lines. */
  function NumberedText(es: seq<Option<string>>): (r: string)
    ensures |es| == 0 <==> r == ""
  {
    if |es| == 0 then "" else NumberedBody(es)
  }

  /** The loop over `es` that writes one numbered line per non-nil error, numbering from 1 by position. */
  method WriteNumbered(es: seq<Option<string>>) returns (out: string)
    ensures out == NumberedText(es)
  {
    if |es| == 0 {
      return "";
    }
    out := MultilinePrefix + "\n";
    for i := 0 to |es|
      invariant out == NumberedBody(es[..i])
    {
      NumberedStep(es, i);
      if es[i].Some? {
        var line := "\t#" + Text.Itoa(i + 1) + " " + es[i].value + "\n";
        out := out + line;
      }
    }
    assert es[..|es|] == es;
  }

  /** Two errors give two lines, numbered 1 and 2, in order. */
  lemma NumberedTwo(a: string, b: string)
    ensures NumberedText([Some(a), Some(b)])
            == MultilinePrefix + "\n" + ("\t#1 " + a + "\n") + ("\t#2 " + b + "\n")
  {
    var es := [Some(a), Some(b)];
    assert es[..1] == [Some(a)];
    assert es[..1][..0] == [];
    assert Text.Itoa(1) == "1" && Text.Itoa(2) == "2";
    assert NumberedLine(1, Some(a)) == "\t#1 " + a + "\n";
    assert NumberedLine(2, Some(b)) == "\t#2 " + b + "\n";
    assert NumberedBody(es[..1]) == MultilinePrefix + "\n" + NumberedLine(1, Some(a));
    assert NumberedBody(es) == NumberedBody(es[..1]) + NumberedLine(2, Some(b));
  }

  /** A nil entry leaves a gap in the numbering: the error after it is still number 2. */
  lemma NumberedGap(a: string)
    ensures NumberedText([None, Some(a)]) == MultilinePrefix + "\n" + ("\t#2 " + a + "\n")
  {
    var es: seq<Option<string>> := [None, Some(a)];
    assert es[..1] == [None];
    assert es[..1][..0] == [];
    assert Text.Itoa(2) == "2";
    assert NumberedLine(2, Some(a)) == "\t#2 " + a + "\n";
    assert NumberedBody(es[..1]) == MultilinePrefix + "\n" + NumberedLine(1, None);
    assert NumberedBody(es) == NumberedBody(es[..1]) + NumberedLine(2, Some(a));
  }
}
