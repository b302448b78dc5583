/** Counting the transactions in the text form of a GTID set
    (internal/pxc/gtid.go), against the set of (uuid, number) pairs the text denotes.

    The text is described with all its layout (blank items between commas, white
    space around every token), so that every legal spelling of a set is covered. */
module GtidText {
  import opened Text

  const MAX_INT64: int := 0x7FFF_FFFF_FFFF_FFFF

  /** Two's-complement wrap-around of a 64-bit signed result. */
  function Wrap64(x: int): int
  {
    (x + 0x8000_0000_0000_0000) % 0x1_0000_0000_0000_0000 - 0x8000_0000_0000_0000
  }

  /** strconv.ParseInt(s, 10, 64); None stands for its error. */
  function ParseInt(s: string): (r: Option<int>)
    ensures s != "" && AllDigits(s) ==> r == if Value(s) <= 0x7FFF_FFFF_FFFF_FFFF then Some(Value(s)) else None
    ensures |s| > 1 && s[0] == '+' && AllDigits(s[1..]) ==>
      r == if Value(s[1..]) <= 0x7FFF_FFFF_FFFF_FFFF then Some(Value(s[1..])) else None
    ensures |s| > 1 && s[0] == '-' && AllDigits(s[1..]) ==>
      r == if Value(s[1..]) <= 0x8000_0000_0000_0000 then Some(-(Value(s[1..]) as int)) else None
    ensures r.Some? ==> s != "" && (AllDigits(s) || (|s| > 1 && (s[0] == '+' || s[0] == '-') && AllDigits(s[1..])))
  {
    if s == "" then None
    else
      var digits := if s[0] == '+' || s[0] == '-' then s[1..] else s;
      if digits == "" || !AllDigits(digits) then None
      else
        var magnitude: int := Value(digits);
        if s[0] == '-' then if magnitude <= MAX_INT64 + 1 then Some(-magnitude) else None
        else if magnitude <= MAX_INT64 then Some(magnitude)
        else None
  }

  // --- what the parser adds up -------------------------------------------------

  /** A range counts only when both ends parse and are in order. */
  function RangeCount(lo: Option<int>, hi: Option<int>): int
  {
    if lo.Some? && hi.Some? && hi.value >= lo.value then hi.value - lo.value + 1 else 0
  }

  /** Contribution of one trimmed interval token. */
  function TokenCount(iv: string): int
  {
    var dash := IndexOf(iv, '-');
    if dash >= 0 then RangeCount(ParseInt(iv[..dash]), ParseInt(iv[dash + 1..]))
    else if ParseInt(iv).Some? then 1
    else 0
  }

  function TokensCount(tokens: seq<string>): int
  {
    if tokens == [] then 0
    else TokensCount(tokens[..|tokens| - 1]) + TokenCount(TrimSpace(tokens[|tokens| - 1]))
  }

  function EntryCount(entry: string): int { TokensCount(Split(entry, ':')[1..]) }

  function EntriesCount(entries: seq<string>): int
  {
    if entries == [] then 0
    else EntriesCount(entries[..|entries| - 1]) + EntryCount(entries[|entries| - 1])
  }

  /** The unbounded sum over every comma-separated, colon-separated token. */
  function TextCount(text: string): int { EntriesCount(Split(text, ',')) }

  lemma {:induction false} TokensCountAppend(a: seq<string>, b: seq<string>)
    ensures TokensCount(a + b) == TokensCount(a) + TokensCount(b)
  {
    if b == [] {
      assert a + b == a;
    } else {
      assert (a + b)[..|a + b| - 1] == a + b[..|b| - 1];
      TokensCountAppend(a, b[..|b| - 1]);
    }
  }

  lemma {:induction false} EntriesCountAppend(a: seq<string>, b: seq<string>)
    ensures EntriesCount(a + b) == EntriesCount(a) + EntriesCount(b)
  {
    if b == [] {
      assert a + b == a;
    } else {
      assert (a + b)[..|a + b| - 1] == a + b[..|b| - 1];
      EntriesCountAppend(a, b[..|b| - 1]);
    }
  }

  lemma OneToken(t: string)
    ensures TokensCount([t]) == TokenCount(TrimSpace(t))
  {
    assert [t][..0] == [];
  }

  lemma NoEntry()
    ensures EntryCount("") == 0 && TextCount("") == 0
  {
    assert Split("", ':') == [""] && Split("", ',') == [""];
    assert [""][..0] == [];
  }

  lemma OneEntry(e: string)
    ensures EntriesCount([e]) == EntryCount(e)
  {
    assert [e][..0] == [];
  }

  lemma {:induction false} TokensCountIsNat(tokens: seq<string>)
    ensures TokensCount(tokens) >= 0
  {
    if tokens != [] {
      TokensCountIsNat(tokens[..|tokens| - 1]);
    }
  }

  /** Malformed tokens and reversed ranges never make the sum smaller. */
  lemma {:induction false} CountIsNat(entries: seq<string>)
    ensures EntriesCount(entries) >= 0
  {
    if entries != [] {
      CountIsNat(entries[..|entries| - 1]);
      TokensCountIsNat(Split(entries[|entries| - 1], ':')[1..]);
    }
  }

  // --- trimming an entry changes nothing ---------------------------------------

  lemma ConsSnoc(head: string, rest: seq<string>, w: char)
    requires rest != []
    ensures var parts := [head] + rest;
            [head] + (rest[..|rest| - 1] + [rest[|rest| - 1] + [w]])
            == parts[..|parts| - 1] + [parts[|parts| - 1] + [w]]
  {
    var parts := [head] + rest;
    assert parts[..|parts| - 1] == [head] + rest[..|rest| - 1];
    assert parts[|parts| - 1] == rest[|rest| - 1];
  }

  /** A trailing character other than the separator only lengthens the last piece. */
  lemma {:induction false} SplitTail(s: string, sep: char, w: char)
    requires w != sep
    ensures var parts := Split(s, sep);
            Split(s + [w], sep) == parts[..|parts| - 1] + [parts[|parts| - 1] + [w]]
    decreases |s|
  {
    var i := IndexOf(s, sep);
    if i < 0 {
      assert IndexOf(s + [w], sep) < 0;
    } else {
      var head, tail := s[..i], s[i + 1..];
      SplitTail(tail, sep, w);
      assert s + [w] == head + [sep] + (tail + [w]) by {
        assert s == head + [sep] + tail;
      }
      SplitFirst(head, sep, tail + [w]);
      ConsSnoc(head, Split(tail, sep), w);
    }
  }

  lemma EntryIgnoresTail(s: string, w: char)
    requires IsSpace(w)
    ensures EntryCount(s + [w]) == EntryCount(s)
  {
    var parts, longer := Split(s, ':'), Split(s + [w], ':');
    var n := |parts| - 1;
    SplitTail(s, ':', w);
    if n > 0 {
      assert longer[1..] == parts[1..n] + [parts[n] + [w]];
      assert parts[1..] == parts[1..n] + [parts[n]];
      TokensCountAppend(parts[1..n], [parts[n] + [w]]);
      TokensCountAppend(parts[1..n], [parts[n]]);
      OneToken(parts[n] + [w]);
      OneToken(parts[n]);
      TrimRightBlank(parts[n], [w]);
    }
  }

  lemma EntryIgnoresHead(w: char, s: string)
    requires IsSpace(w)
    ensures EntryCount([w] + s) == EntryCount(s)
  {
    var i := IndexOf(s, ':');
    if i < 0 {
      assert IndexOf([w] + s, ':') < 0;
    } else {
      var head, tail := s[..i], s[i + 1..];
      assert s == head + [':'] + tail;
      assert [w] + s == ([w] + head) + [':'] + tail;
      SplitFirst(head, ':', tail);
      SplitFirst([w] + head, ':', tail);
    }
  }

  lemma {:induction false} EntryIgnoresTrimRight(s: string)
    ensures EntryCount(TrimRight(s)) == EntryCount(s)
  {
    if s != "" && IsSpace(s[|s| - 1]) {
      assert s == s[..|s| - 1] + [s[|s| - 1]];
      EntryIgnoresTail(s[..|s| - 1], s[|s| - 1]);
      EntryIgnoresTrimRight(s[..|s| - 1]);
    }
  }

  lemma {:induction false} EntryIgnoresTrimLeft(s: string)
    ensures EntryCount(TrimLeft(s)) == EntryCount(s)
  {
    if s != "" && IsSpace(s[0]) {
      assert s == [s[0]] + s[1..];
      EntryIgnoresHead(s[0], s[1..]);
      EntryIgnoresTrimLeft(s[1..]);
    }
  }

  lemma EntryIgnoresTrim(s: string)
    ensures EntryCount(TrimSpace(s)) == EntryCount(s)
  {
    EntryIgnoresTrimRight(s);
    EntryIgnoresTrimLeft(TrimRight(s));
  }

  /** strings.FieldsFunc drops the empty pieces that Split keeps. */
  function NonEmpty(parts: seq<string>): seq<string>
  {
    if parts == [] then []
    else NonEmpty(parts[..|parts| - 1]) + if parts[|parts| - 1] == "" then [] else [parts[|parts| - 1]]
  }

  lemma {:induction false} EntriesIgnoreEmpty(parts: seq<string>)
    ensures EntriesCount(NonEmpty(parts)) == EntriesCount(parts)
  {
    if parts != [] {
      var last := parts[|parts| - 1];
      EntriesIgnoreEmpty(parts[..|parts| - 1]);
      EntriesCountAppend(NonEmpty(parts[..|parts| - 1]), if last == "" then [] else [last]);
      OneEntry(last);
    }
  }

  // --- every legal spelling of a set -------------------------------------------

  /** One interval token with its layout. A single number may also be written as
      the range n-n; white space may stand on either side of the dash. */
  datatype Token = Token(before: string, lo: nat, hi: nat, range: bool,
                         preDash: string, postDash: string, after: string)

  /** What stands between two commas: nothing but white space, or one uuid with its
      interval tokens. */
  datatype Item =
    | Void(ws: string)
    | Uuid(lead: string, uuid: string, gap: string, tokens: seq<Token>)

  predicate LegalToken(t: Token)
  {
    && Blank(t.before) && Blank(t.preDash) && Blank(t.postDash) && Blank(t.after)
    && 1 <= t.lo <= t.hi <= MAX_INT64
    && (t.range || t.lo == t.hi)
  }

  predicate IsHex(c: char) { IsDigit(c) || 'a' <= c <= 'f' || 'A' <= c <= 'F' }

  /** Five groups of hexadecimal digits in either case, joined by dashes. */
  predicate LegalUuid(u: string)
  {
    |u| == 36 && forall i :: 0 <= i < 36 ==> if i in {8, 13, 18, 23} then u[i] == '-' else IsHex(u[i])
  }

  function Lower(c: char): char
  {
    if 'A' <= c <= 'F' then (c as int - 'A' as int + 'a' as int) as char else c
  }

  /** The uuid a spelling means: the case of its digits makes no difference. */
  function Canonical(u: string): string { seq(|u|, i requires 0 <= i < |u| => Lower(u[i])) }

  predicate LegalItem(it: Item)
  {
    match it
    case Void(ws) => Blank(ws)
    case Uuid(lead, uuid, gap, tokens) =>
      && Blank(lead) && Blank(gap) && LegalUuid(uuid)
      && forall i :: 0 <= i < |tokens| ==> LegalToken(tokens[i])
  }

  predicate Legal(items: seq<Item>) { forall i :: 0 <= i < |items| ==> LegalItem(items[i]) }

  function RenderCore(t: Token): string
  {
    if t.range then (Dec(t.lo) + t.preDash) + ['-'] + (t.postDash + Dec(t.hi)) else Dec(t.lo)
  }

  function RenderToken(t: Token): string { t.before + RenderCore(t) + t.after }

  function RenderTokens(ts: seq<Token>): string
  {
    if ts == [] then "" else [':'] + (RenderToken(ts[0]) + RenderTokens(ts[1..]))
  }

  function RenderItem(it: Item): string
  {
    match it
    case Void(ws) => ws
    case Uuid(lead, uuid, gap, tokens) => lead + uuid + gap + RenderTokens(tokens)
  }

  function Render(items: seq<Item>): string
  {
    if items == [] then ""
    else if |items| == 1 then RenderItem(items[0])
    else RenderItem(items[0]) + [','] + Render(items[1..])
  }

  /** White space beside the dash of a range, which MySQL's own reader accepts. */
  predicate SpacedDash(t: Token) { t.range && (t.preDash != "" || t.postDash != "") }

  predicate NoSpacedDash(items: seq<Item>)
  {
    forall i, j :: 0 <= i < |items| && items[i].Uuid? && 0 <= j < |items[i].tokens| ==>
      !SpacedDash(items[i].tokens[j])
  }

  // --- the denoted set -----------------------------------------------------------

  datatype Interval = Interval(uuid: string, lo: nat, hi: nat)

  type Gtid = (string, nat)

  function Txns(iv: Interval): set<Gtid> { set n | iv.lo <= n <= iv.hi :: (iv.uuid, n) }

  function TokenIntervals(uuid: string, ts: seq<Token>): (ivs: seq<Interval>)
    ensures |ivs| == |ts|
  {
    if ts == [] then [] else [Interval(uuid, ts[0].lo, ts[0].hi)] + TokenIntervals(uuid, ts[1..])
  }

  function Intervals(items: seq<Item>): seq<Interval>
  {
    if items == [] then []
    else (match items[0]
          case Void(_) => []
          case Uuid(_, uuid, _, tokens) => TokenIntervals(Canonical(uuid), tokens)) + Intervals(items[1..])
  }

  function Union(ivs: seq<Interval>): set<Gtid>
  {
    if ivs == [] then {} else Txns(ivs[0]) + Union(ivs[1..])
  }

  /** The GTID set a spelling denotes. */
  function Denotes(items: seq<Item>): set<Gtid> { Union(Intervals(items)) }

  predicate Apart(a: Interval, b: Interval) { a.uuid != b.uuid || a.hi < b.lo || b.hi < a.lo }

  predicate PairwiseApart(ivs: seq<Interval>)
  {
    forall i, j :: 0 <= i < j < |ivs| ==> Apart(ivs[i], ivs[j])
  }

  function Length(iv: Interval): nat { if iv.lo <= iv.hi then iv.hi - iv.lo + 1 else 0 }

  function TotalLength(ivs: seq<Interval>): nat
  {
    if ivs == [] then 0 else Length(ivs[0]) + TotalLength(ivs[1..])
  }

  // --- cardinality of the denoted set ----------------------------------------------

  lemma {:induction false} TxnsSize(iv: Interval)
    requires iv.lo <= iv.hi
    ensures |Txns(iv)| == Length(iv)
    decreases iv.hi - iv.lo
  {
    if iv.lo == iv.hi {
      assert Txns(iv) == {(iv.uuid, iv.lo)};
    } else {
      var shorter := iv.(hi := iv.hi - 1);
      TxnsSize(shorter);
      assert Txns(iv) == Txns(shorter) + {(iv.uuid, iv.hi)};
    }
  }

  lemma {:induction false} UnionHits(iv: Interval, ivs: seq<Interval>)
    requires iv.lo <= iv.hi
    requires forall k :: 0 <= k < |ivs| ==> ivs[k].lo <= ivs[k].hi
    ensures Txns(iv) * Union(ivs) == {} <==> forall k :: 0 <= k < |ivs| ==> Apart(iv, ivs[k])
  {
    if ivs != [] {
      UnionHits(iv, ivs[1..]);
      var b := ivs[0];
      assert Txns(iv) * Union(ivs) == Txns(iv) * Txns(b) + Txns(iv) * Union(ivs[1..]);
      if !Apart(iv, b) {
        var n := if iv.lo <= b.lo then b.lo else iv.lo;
        assert (iv.uuid, n) in Txns(iv) * Txns(b);
      } else {
        assert Txns(iv) * Txns(b) == {};
      }
      assert forall k :: 0 < k < |ivs| ==> ivs[k] == ivs[1..][k - 1];
    }
  }

  /** Adding the interval lengths never undercounts the set, and is exact just when
      no two intervals overlap. */
  lemma {:induction false} UnionSize(ivs: seq<Interval>)
    requires forall k :: 0 <= k < |ivs| ==> ivs[k].lo <= ivs[k].hi
    ensures |Union(ivs)| <= TotalLength(ivs)
    ensures |Union(ivs)| == TotalLength(ivs) <==> PairwiseApart(ivs)
  {
    if ivs != [] {
      var head, tail := Txns(ivs[0]), Union(ivs[1..]);
      UnionSize(ivs[1..]);
      TxnsSize(ivs[0]);
      UnionHits(ivs[0], ivs[1..]);
      assert |head + tail| == |head| + |tail| - |head * tail|;
      assert head * tail != {} ==> |head * tail| > 0;
      assert PairwiseApart(ivs) <==>
             PairwiseApart(ivs[1..]) && forall k :: 0 <= k < |ivs[1..]| ==> Apart(ivs[0], ivs[1..][k]) by {
        assert forall k :: 0 < k < |ivs| ==> ivs[k] == ivs[1..][k - 1];
        assert forall k :: 0 <= k < |ivs[1..]| ==> ivs[1..][k] == ivs[k + 1];
      }
    }
  }

  // --- reading a spelling back -------------------------------------------------------

  lemma NoDash(n: nat, ws: string)
    requires Blank(ws)
    ensures '-' !in Dec(n) + ws
  {
  }

  lemma BareNumber(n: nat)
    requires n <= MAX_INT64
    ensures ParseInt(Dec(n)) == Some(n)
  {
    ValueOfDec(n);
  }

  lemma NumberThenBlank(n: nat, ws: string)
    requires Blank(ws) && ws != ""
    ensures ParseInt(Dec(n) + ws) == None
  {
    assert !IsDigit((Dec(n) + ws)[|Dec(n)|]);
    assert IsDigit((Dec(n) + ws)[0]);
  }

  lemma BlankThenNumber(n: nat, ws: string)
    requires Blank(ws) && ws != ""
    ensures ParseInt(ws + Dec(n)) == None
  {
    assert !IsDigit((ws + Dec(n))[0]);
  }

  lemma CoreEnds(t: Token)
    requires LegalToken(t)
    ensures var core := RenderCore(t);
            core != "" && IsDigit(core[0]) && IsDigit(core[|core| - 1])
  {
    var core := RenderCore(t);
    assert core[0] == Dec(t.lo)[0];
    assert t.range ==> core[|core| - 1] == Dec(t.hi)[|Dec(t.hi)| - 1];
  }

  lemma RangeReadBack(a: string, b: string)
    requires '-' !in a
    ensures TokenCount(a + ['-'] + b) == RangeCount(ParseInt(a), ParseInt(b))
  {
    var core := a + ['-'] + b;
    IndexOfFirst(a, '-', b);
    assert core[..|a|] == a && core[|a| + 1..] == b;
  }

  lemma RangeCoreReadBack(t: Token)
    requires LegalToken(t) && t.range
    ensures TokenCount(RenderCore(t)) == if SpacedDash(t) then 0 else t.hi - t.lo + 1
  {
    hide Dec, ParseInt, TokenCount, IsSpace, IsDigit;
    var a, b := Dec(t.lo) + t.preDash, t.postDash + Dec(t.hi);
    NoDash(t.lo, t.preDash);
    RangeReadBack(a, b);
    if t.preDash != "" {
      NumberThenBlank(t.lo, t.preDash);
    } else if t.postDash != "" {
      BlankThenNumber(t.hi, t.postDash);
    } else {
      assert a == Dec(t.lo) && b == Dec(t.hi);
      BareNumber(t.lo);
      BareNumber(t.hi);
    }
  }

  lemma SingleCoreReadBack(t: Token)
    requires LegalToken(t) && !t.range
    ensures TokenCount(RenderCore(t)) == 1
  {
    NoDash(t.lo, "");
    assert Dec(t.lo) + "" == Dec(t.lo);
    BareNumber(t.lo);
  }

  lemma TokenReadBack(t: Token)
    requires LegalToken(t)
    ensures TokenCount(TrimSpace(RenderToken(t))) == if SpacedDash(t) then 0 else t.hi - t.lo + 1
  {
    CoreEnds(t);
    TrimSpacePadded(t.before, RenderCore(t), t.after);
    if t.range { RangeCoreReadBack(t); } else { SingleCoreReadBack(t); }
  }

  /** What the tokens of a spelling contribute: spaced ranges are lost. */
  function Counted(ts: seq<Token>): nat
    requires forall i :: 0 <= i < |ts| ==> LegalToken(ts[i])
  {
    if ts == [] then 0
    else
      assert LegalToken(ts[0]);
      (if SpacedDash(ts[0]) then 0 else ts[0].hi - ts[0].lo + 1) + Counted(ts[1..])
  }

  function CountedItems(items: seq<Item>): nat
    requires Legal(items)
  {
    if items == [] then 0
    else (if items[0].Uuid? then Counted(items[0].tokens) else 0) + CountedItems(items[1..])
  }

  lemma RenderCorePlain(t: Token)
    requires LegalToken(t)
    ensures ':' !in RenderCore(t) && ',' !in RenderCore(t)
  {
  }

  lemma RenderTokenPlain(t: Token)
    requires LegalToken(t)
    ensures ':' !in RenderToken(t) && ',' !in RenderToken(t)
  {
    RenderCorePlain(t);
  }

  lemma TokensText(head: string, ts: seq<Token>)
    requires ts != []
    ensures head + RenderTokens(ts) == head + [':'] + (RenderToken(ts[0]) + RenderTokens(ts[1..]))
  {
    var text := RenderToken(ts[0]) + RenderTokens(ts[1..]);
    assert head + ([':'] + text) == head + [':'] + text;
  }

  lemma {:induction false} TokensReadBack(head: string, ts: seq<Token>)
    requires ':' !in head
    requires forall i :: 0 <= i < |ts| ==> LegalToken(ts[i])
    ensures TokensCount(Split(head + RenderTokens(ts), ':')[1..]) == Counted(ts)
    ensures Split(head + RenderTokens(ts), ':')[0] == head
    decreases |ts|
  {
    if ts == [] {
      assert head + RenderTokens(ts) == head;
    } else {
      assert LegalToken(ts[0]);
      var token := RenderToken(ts[0]);
      var text := token + RenderTokens(ts[1..]);
      var parts := Split(text, ':');
      RenderTokenPlain(ts[0]);
      TokensReadBack(token, ts[1..]);
      TokensText(head, ts);
      SplitFirst(head, ':', text);
      assert ([head] + parts)[1..] == [token] + parts[1..];
      TokensCountAppend([token], parts[1..]);
      OneToken(token);
      TokenReadBack(ts[0]);
    }
  }

  lemma {:induction false} RenderTokensPlain(ts: seq<Token>)
    requires forall i :: 0 <= i < |ts| ==> LegalToken(ts[i])
    ensures ',' !in RenderTokens(ts)
  {
    if ts != [] {
      assert LegalToken(ts[0]);
      RenderTokenPlain(ts[0]);
      RenderTokensPlain(ts[1..]);
    }
  }

  lemma HeadPlain(lead: string, uuid: string, gap: string)
    requires Blank(lead) && LegalUuid(uuid) && Blank(gap)
    ensures ':' !in lead + uuid + gap && ',' !in lead + uuid + gap
  {
  }

  lemma ItemReadBack(it: Item)
    requires LegalItem(it)
    ensures EntryCount(RenderItem(it)) == if it.Uuid? then Counted(it.tokens) else 0
    ensures ',' !in RenderItem(it)
  {
    match it
    case Void(ws) =>
      assert ':' !in ws;
    case Uuid(lead, uuid, gap, tokens) =>
      HeadPlain(lead, uuid, gap);
      TokensReadBack(lead + uuid + gap, tokens);
      RenderTokensPlain(tokens);
  }

  lemma {:induction false} ItemsReadBack(items: seq<Item>)
    requires Legal(items)
    ensures TextCount(Render(items)) == CountedItems(items)
  {
    if items == [] {
      NoEntry();
    } else {
      var first := RenderItem(items[0]);
      ItemReadBack(items[0]);
      OneEntry(first);
      if |items| == 1 {
        assert Split(first, ',') == [first];
        assert CountedItems(items[1..]) == 0;
      } else {
        ItemsReadBack(items[1..]);
        assert Render(items) == first + [','] + Render(items[1..]);
        SplitFirst(first, ',', Render(items[1..]));
        EntriesCountAppend([first], Split(Render(items[1..]), ','));
      }
    }
  }

  lemma {:induction false} TotalLengthAppend(a: seq<Interval>, b: seq<Interval>)
    ensures TotalLength(a + b) == TotalLength(a) + TotalLength(b)
  {
    if a == [] {
      assert a + b == b;
    } else {
      assert (a + b)[1..] == a[1..] + b;
      TotalLengthAppend(a[1..], b);
    }
  }

  lemma {:induction false} CountedTokens(uuid: string, ts: seq<Token>)
    requires forall i :: 0 <= i < |ts| ==> LegalToken(ts[i])
    ensures forall k :: 0 <= k < |ts| ==>
      TokenIntervals(uuid, ts)[k].lo <= TokenIntervals(uuid, ts)[k].hi
    ensures Counted(ts) <= TotalLength(TokenIntervals(uuid, ts))
    ensures Counted(ts) == TotalLength(TokenIntervals(uuid, ts)) <==>
            forall i :: 0 <= i < |ts| ==> !SpacedDash(ts[i])
  {
    if ts != [] {
      CountedTokens(uuid, ts[1..]);
      assert forall i :: 0 < i < |ts| ==> ts[i] == ts[1..][i - 1];
      assert TokenIntervals(uuid, ts)[1..] == TokenIntervals(uuid, ts[1..]);
    }
  }

  lemma NoSpacedDashFirst(items: seq<Item>)
    requires items != []
    ensures NoSpacedDash(items) <==>
            (NoSpacedDash(items[1..]) &&
             (items[0].Uuid? ==> forall j :: 0 <= j < |items[0].tokens| ==> !SpacedDash(items[0].tokens[j])))
  {
    assert forall i :: 0 < i < |items| ==> items[i] == items[1..][i - 1];
    assert forall i :: 0 <= i < |items[1..]| ==> items[1..][i] == items[i + 1];
  }

  lemma {:induction false} CountedLength(items: seq<Item>)
    requires Legal(items)
    ensures forall k :: 0 <= k < |Intervals(items)| ==> Intervals(items)[k].lo <= Intervals(items)[k].hi
    ensures CountedItems(items) <= TotalLength(Intervals(items))
    ensures CountedItems(items) == TotalLength(Intervals(items)) <==> NoSpacedDash(items)
  {
    if items != [] {
      CountedLength(items[1..]);
      var mine := match items[0]
        case Void(_) => []
        case Uuid(_, uuid, _, tokens) => TokenIntervals(Canonical(uuid), tokens);
      if items[0].Uuid? {
        CountedTokens(Canonical(items[0].uuid), items[0].tokens);
      }
      TotalLengthAppend(mine, Intervals(items[1..]));
      NoSpacedDashFirst(items);
    }
  }

  /** For every legal spelling of disjoint intervals, the sum is the cardinality of
      the denoted set exactly when no range has white space beside its dash. */
  lemma CountIsCardinality(items: seq<Item>)
    requires Legal(items) && PairwiseApart(Intervals(items))
    ensures TextCount(Render(items)) <= |Denotes(items)|
    ensures TextCount(Render(items)) == |Denotes(items)| <==> NoSpacedDash(items)
  {
    ItemsReadBack(items);
    CountedLength(items);
    UnionSize(Intervals(items));
  }

  /** Without spaced dashes the sum never undercounts, and is exact if and only if no
      two listed intervals overlap. */
  lemma CountIsExactIffDisjoint(items: seq<Item>)
    requires Legal(items) && NoSpacedDash(items)
    ensures TextCount(Render(items)) >= |Denotes(items)|
    ensures TextCount(Render(items)) == |Denotes(items)| <==> PairwiseApart(Intervals(items))
  {
    ItemsReadBack(items);
    CountedLength(items);
    UnionSize(Intervals(items));
  }

  lemma SpacedDashIsLost(uuid: string)
    requires LegalUuid(uuid)
    ensures var items := [Uuid("", uuid, "", [Token("", 1, 5, true, " ", " ", "")])];
            Legal(items) && |Denotes(items)| == 5 && TextCount(Render(items)) == 0
  {
    var t := Token("", 1, 5, true, " ", " ", "");
    hide LegalUuid, Canonical, Render, TextCount;
    ItemsReadBack([Uuid("", uuid, "", [t])]);
    OneTokenItem(uuid, t, []);
    TxnsSize(Interval(Canonical(uuid), 1, 5));
  }

  const SAMPLE_UUID := "3e11fa47-71ca-11e1-9e33-c80aa9429562"

  lemma SampleIsLegal()
    ensures LegalUuid(SAMPLE_UUID)
  {
    var u := SAMPLE_UUID;
    assert |u| == 36 && u[8] == u[13] == u[18] == u[23] == '-';
    assert forall i :: 0 <= i < 18 ==> i in {8, 13} || IsHex(u[i]);
    assert forall i :: 18 <= i < 36 ==> i in {18, 23} || IsHex(u[i]);
  }

  lemma OneTokenItem(uuid: string, t: Token, rest: seq<Item>)
    requires LegalUuid(uuid) && LegalToken(t) && Legal(rest)
    ensures var items := [Uuid("", uuid, "", [t])] + rest;
            && Legal(items)
            && CountedItems(items) == (if SpacedDash(t) then 0 else t.hi - t.lo + 1) + CountedItems(rest)
            && Denotes(items) == Txns(Interval(Canonical(uuid), t.lo, t.hi)) + Denotes(rest)
  {
    hide LegalUuid, Canonical, Txns;
    var items := [Uuid("", uuid, "", [t])] + rest;
    var iv := Interval(Canonical(uuid), t.lo, t.hi);
    assert items[1..] == rest;
    assert TokenIntervals(Canonical(uuid), [t]) == [iv] + TokenIntervals(Canonical(uuid), [t][1..]) == [iv];
    assert Counted([t]) == (if SpacedDash(t) then 0 else t.hi - t.lo + 1) + Counted([t][1..]);
    assert Intervals(items) == [iv] + Intervals(rest);
    assert ([iv] + Intervals(rest))[1..] == Intervals(rest);
  }

  /** Two spellings of one uuid are one source: the same range listed under both counts
      twice, although the set holds it once. */
  lemma SpellingsAreOneSource(u: string, v: string)
    requires LegalUuid(u) && LegalUuid(v) && Canonical(u) == Canonical(v)
    ensures var t := Token("", 1, 5, true, "", "", "");
            var items := [Uuid("", u, "", [t]), Uuid("", v, "", [t])];
            && Legal(items) && NoSpacedDash(items) && !PairwiseApart(Intervals(items))
            && |Denotes(items)| == 5 && TextCount(Render(items)) == 10
  {
    var t := Token("", 1, 5, true, "", "", "");
    TwiceListed(u, v, t);
    TxnsSize(Interval(Canonical(u), 1, 5));
    hide LegalUuid, Canonical, Render, TextCount, Union, Intervals, Denotes, Txns, PairwiseApart;
    CountIsExactIffDisjoint([Uuid("", u, "", [t]), Uuid("", v, "", [t])]);
  }

  lemma TwiceListed(u: string, v: string, t: Token)
    requires LegalUuid(u) && LegalUuid(v) && Canonical(u) == Canonical(v) && LegalToken(t) && !SpacedDash(t)
    ensures var items := [Uuid("", u, "", [t]), Uuid("", v, "", [t])];
            && Legal(items) && TextCount(Render(items)) == 2 * (t.hi - t.lo + 1)
            && Denotes(items) == Txns(Interval(Canonical(u), t.lo, t.hi))
  {
    hide LegalUuid, Canonical, Render, TextCount, Union, Intervals, CountedItems, Denotes, Txns, Length, SpacedDash;
    var second := [Uuid("", v, "", [t])];
    var items := [Uuid("", u, "", [t])] + second;
    OneTokenItem(v, t, []);
    OneTokenItem(u, t, second);
    NothingDenoted();
    assert second + [] == second && items == [Uuid("", u, "", [t]), Uuid("", v, "", [t])];
    ItemsReadBack(items);
  }

  lemma NothingDenoted()
    ensures Denotes([]) == {} && CountedItems([]) == 0
  {
  }

  /** Two spellings mean one uuid exactly when they differ in case only. */
  lemma SameUuidIff(u: string, v: string)
    ensures Canonical(u) == Canonical(v) <==> |u| == |v| && forall i :: 0 <= i < |u| ==> Lower(u[i]) == Lower(v[i])
  {
    var a, b := Canonical(u), Canonical(v);
    if a == b {
      forall i | 0 <= i < |u|
        ensures Lower(u[i]) == Lower(v[i])
      {
        assert a[i] == b[i];
      }
    }
  }

  /** There are such spellings. */
  lemma OtherSpelling()
    ensures var v := SAMPLE_UUID[1 := 'E'];
            LegalUuid(v) && v != SAMPLE_UUID && Canonical(v) == Canonical(SAMPLE_UUID)
  {
    SampleIsLegal();
    var u := SAMPLE_UUID;
    var v := u[1 := 'E'];
    assert u[1] == 'e' && v[1] == 'E';
    SameUuidIff(u, v);
  }

  /** The wrapped sum is the 64-bit signed number congruent to it. */
  lemma WrapMod(x: int)
    ensures -0x8000_0000_0000_0000 <= Wrap64(x) < 0x8000_0000_0000_0000
    ensures (Wrap64(x) - x) % 0x1_0000_0000_0000_0000 == 0
  {
  }

  lemma WrapShift(x: int, k: int)
    ensures Wrap64(x + k * 0x1_0000_0000_0000_0000) == Wrap64(x)
  {
  }

  lemma WrapSmall(x: int)
    requires 0 <= x <= MAX_INT64
    ensures Wrap64(x) == x
  {
  }

  lemma WrapAdd(a: int, b: int)
    ensures Wrap64(Wrap64(a) + b) == Wrap64(a + b)
  {
    var k := (a + 0x8000_0000_0000_0000) / 0x1_0000_0000_0000_0000;
    assert a == Wrap64(a) + k * 0x1_0000_0000_0000_0000;
    WrapShift(Wrap64(a) + b, k);
  }

  lemma WrapRange(before: int, total: int, lo: int, hi: int)
    requires total == Wrap64(before)
    ensures Wrap64(total + Wrap64(Wrap64(hi - lo) + 1)) == Wrap64(before + (hi - lo + 1))
  {
    WrapAdd(hi - lo, 1);
    WrapAdd(hi - lo + 1, total);
    WrapAdd(before, hi - lo + 1);
  }

  lemma TokensCountStep(parts: seq<string>, p: nat)
    requires p < |parts|
    ensures TokensCount(parts[..p + 1]) == TokensCount(parts[..p]) + TokenCount(TrimSpace(parts[p]))
  {
    assert parts[..p + 1][..p] == parts[..p];
  }

  lemma EntriesCountStep(entries: seq<string>, e: nat)
    requires e < |entries|
    ensures EntriesCount(entries[..e + 1]) == EntriesCount(entries[..e]) + EntryCount(TrimSpace(entries[e]))
  {
    assert entries[..e + 1][..e] == entries[..e];
    EntryIgnoresTrim(entries[e]);
  }

  /** What one token does to the running total. */
  method AddToken(iv: string, total: int, ghost before: int) returns (after: int, ghost sum: int)
    requires total == Wrap64(before)
    ensures sum == before + TokenCount(iv) && after == Wrap64(sum)
    ensures '-' !in iv ==> sum == before + if ParseInt(iv).Some? then 1 else 0
    ensures '-' in iv ==>
      exists dash :: 0 <= dash < |iv| && iv[dash] == '-' && '-' !in iv[..dash] &&
        var lo, hi := ParseInt(iv[..dash]), ParseInt(iv[dash + 1..]);
        sum - before == if lo.Some? && hi.Some? && lo.value <= hi.value then hi.value - lo.value + 1 else 0
  {
    hide Wrap64, ParseInt;
    after, sum := total, before + TokenCount(iv);
    var dash := IndexOf(iv, '-');
    if dash >= 0 {
      var lo, hi := ParseInt(iv[..dash]), ParseInt(iv[dash + 1..]);
      if lo.Some? && hi.Some? && hi.value >= lo.value {
        WrapRange(before, total, lo.value, hi.value);
        after := Wrap64(total + Wrap64(Wrap64(hi.value - lo.value) + 1));
      }
    } else if ParseInt(iv).Some? {
      WrapAdd(before, 1);
      after := Wrap64(total + 1);
    }
  }

  /** The inner loop: the interval tokens of one trimmed entry. */
  method AddTokens(parts: seq<string>, start: int, ghost before: int) returns (total: int, ghost sum: int)
    requires start == Wrap64(before)
    ensures sum == before + TokensCount(parts) && total == Wrap64(sum)
  {
    total, sum := start, before;
    for p := 0 to |parts|
      invariant sum == before + TokensCount(parts[..p])
      invariant total == Wrap64(sum)
    {
      var iv := TrimSpace(parts[p]);
      TokensCountStep(parts, p);
      if iv != "" {
        total, sum := AddToken(iv, total, sum);
      }
    }
    assert parts[..|parts|] == parts;
  }

  lemma TextCountIsCardinality(text: string)
    ensures forall items ::
      text == Render(items) && Legal(items) && PairwiseApart(Intervals(items)) && NoSpacedDash(items)
      && |Denotes(items)| <= MAX_INT64 ==>
        Wrap64(TextCount(text)) == |Denotes(items)|
  {
    forall items | text == Render(items) && Legal(items) && PairwiseApart(Intervals(items)) && NoSpacedDash(items)
                   && |Denotes(items)| <= MAX_INT64
      ensures Wrap64(TextCount(text)) == |Denotes(items)|
    {
      CountIsCardinality(items);
      WrapSmall(|Denotes(items)|);
    }
  }

  /** The outer loop: the comma-separated entries. */
  method AddEntries(entries: seq<string>) returns (total: int)
    ensures total == Wrap64(EntriesCount(entries))
  {
    total := 0;
    ghost var sum := 0;
    for e := 0 to |entries|
      invariant sum == EntriesCount(entries[..e])
      invariant total == Wrap64(sum)
    {
      var entry := TrimSpace(entries[e]);
      EntriesCountStep(entries, e);
      if entry != "" {
        total, sum := AddTokens(Split(entry, ':')[1..], total, sum);
      } else {
        NoEntry();
      }
    }
    assert entries[..|entries|] == entries;
  }

  /** The whole count. The result is the wrapped sum for
      every input text; on a legal spelling of disjoint intervals whose dashes stand
      alone, it is the number of transactions in the set, while that fits int64. */
  method CountGTIDTransactions(gtidSet: string) returns (total: int)
    ensures total == Wrap64(TextCount(gtidSet))
    ensures forall items ::
      gtidSet == Render(items) && Legal(items) && PairwiseApart(Intervals(items)) && NoSpacedDash(items)
      && |Denotes(items)| <= MAX_INT64 ==>
        total == |Denotes(items)|
  {
    total := 0;
    if gtidSet == "" {
      NoEntry();
    } else {
      EntriesIgnoreEmpty(Split(gtidSet, ','));
      total := AddEntries(NonEmpty(Split(gtidSet, ',')));
    }
    TextCountIsCardinality(gtidSet);
  }
}
