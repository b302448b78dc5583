/** SQL text built from names: quoteChannel and validGTIDLiteral
    (internal/pxc/replication.go), against the server's rules for string literals
    (MySQL 8.0 Reference Manual, section 9.1.1 "String Literals"). */
module SqlText {
  import opened Text

  datatype Literal = Literal(value: string, rest: string)

  /** What a backslash escape stands for. */
  function Escape(c: char): string
  {
    match c
    case '0' => "\0"
    case 'n' => "\n"
    case 'r' => "\r"
    case 't' => "\t"
    case 'b' => "\U{8}"
    case 'Z' => "\U{1A}"
    case '%' => "\\%"
    case '_' => "\\_"
    case _ => [c]
  }

  /** Reads a string literal whose opening quote has been consumed: its value and what
      follows the closing quote. `escapes` is off under NO_BACKSLASH_ESCAPES. */
  function Read(s: string, escapes: bool): Option<Literal>
    decreases |s|
  {
    if s == "" then None
    else if s[0] == '\'' then
      if |s| > 1 && s[1] == '\'' then Prefixed("'", Read(s[2..], escapes))
      else Some(Literal("", s[1..]))
    else if escapes && s[0] == '\\' then
      if |s| == 1 then None else Prefixed(Escape(s[1]), Read(s[2..], escapes))
    else Prefixed([s[0]], Read(s[1..], escapes))
  }

  function Prefixed(c: string, l: Option<Literal>): Option<Literal>
  {
    match l
    case None => None
    case Some(Literal(value, rest)) => Some(Literal(c + value, rest))
  }

  function Doubled(c: char): string { if c in {'\'', '\\'} then [c, c] else [c] }

  function Body(name: string): string
  {
    if name == "" then "" else Doubled(name[0]) + Body(name[1..])
  }

  method QuoteChannel(name: string) returns (out: string)
    ensures out == "'" + Body(name) + "'"
  {
    out := "'";
    assert name[0..] == name;
    for i := 0 to |name|
      invariant out + Body(name[i..]) == "'" + Body(name)
    {
      BodyStep(out, name, i);
      hide Body;
      if name[i] == '\'' {
        out := out + ['\'', '\''];
      } else if name[i] == '\\' {
        out := out + ['\\', '\\'];
      } else {
        out := out + [name[i]];
      }
    }
    assert out == "'" + Body(name);
    out := out + "'";
  }

  lemma BodyStep(out: string, name: string, i: nat)
    requires i < |name|
    ensures out + Body(name[i..]) == (out + Doubled(name[i])) + Body(name[i + 1..])
  {
    assert name[i..][1..] == name[i + 1..];
    hide Doubled;
    assert out + (Doubled(name[i]) + Body(name[i + 1..])) == (out + Doubled(name[i])) + Body(name[i + 1..]);
  }

  function Backslashes(name: string): string
  {
    if name == "" then ""
    else (if name[0] == '\\' then "\\\\" else [name[0]]) + Backslashes(name[1..])
  }

  /** What the server reads out of a quoted channel name: the name itself with backslash
      escapes on, and the name with every backslash doubled with them off. Either way the
      literal ends where it was meant to. */
  lemma {:induction false} QuotedReads(name: string, rest: string, escapes: bool)
    requires rest == "" || rest[0] != '\''
    ensures Read(Body(name) + "'" + rest, escapes) ==
      Some(Literal(if escapes then name else Backslashes(name), rest))
  {
    if name == "" {
      assert Body(name) + "'" + rest == "'" + rest;
      assert ("'" + rest)[1..] == rest;
    } else {
      var c, tail := name[0], name[1..];
      assert Body(name) == Doubled(c) + Body(tail);
      hide Read, Body, Escape, Prefixed, Backslashes, Doubled;
      QuotedReads(tail, rest, escapes);
      ReadOne(c, Body(tail) + "'" + rest, escapes);
      Regroup(Doubled(c), Body(tail), rest);
      Consed(c, tail, rest, escapes);
      assert name == [c] + tail;
    }
  }

  lemma Consed(c: char, tail: string, rest: string, escapes: bool)
    ensures Prefixed(if c == '\\' && !escapes then "\\\\" else [c],
                     Some(Literal(if escapes then tail else Backslashes(tail), rest))) ==
      Some(Literal(if escapes then [c] + tail else Backslashes([c] + tail), rest))
  {
    assert ([c] + tail)[1..] == tail;
  }

  lemma Regroup(a: string, b: string, rest: string)
    ensures (a + b) + "'" + rest == a + (b + "'" + rest)
  {
  }

  lemma ReadOne(c: char, s: string, escapes: bool)
    ensures Read(Doubled(c) + s, escapes) ==
      Prefixed(if c == '\\' && !escapes then "\\\\" else [c], Read(s, escapes))
  {
    var t := Doubled(c) + s;
    assert t[0] == c;
    if c == '\'' {
      assert t[1] == c && t[2..] == s;
    } else if c == '\\' {
      assert t[1] == c && t[2..] == s;
      if !escapes {
        assert t[1..][0] == c && t[1..][1..] == s;
        if Read(s, escapes).Some? {
          assert "\\" + ("\\" + Read(s, escapes).value.value) == "\\\\" + Read(s, escapes).value.value;
        }
      }
    } else {
      assert t[1..] == s;
    }
  }

  lemma {:induction false} NoBackslashes(name: string)
    ensures |Backslashes(name)| >= |name|
    ensures Backslashes(name) == name <==> '\\' !in name
  {
    if name != "" {
      NoBackslashes(name[1..]);
      assert name == [name[0]] + name[1..];
      if name[0] != '\\' {
        assert Backslashes(name)[1..] == Backslashes(name[1..]);
      }
    }
  }

  /** With backslash escapes off, the server sees the channel that was meant exactly when
      its name has no backslash. */
  lemma QuotedReadsIff(name: string, rest: string)
    requires rest == "" || rest[0] != '\''
    ensures Read(Body(name) + "'" + rest, true) == Some(Literal(name, rest))
    ensures Read(Body(name) + "'" + rest, false) == Some(Literal(name, rest)) <==> '\\' !in name
  {
    QuotedReads(name, rest, true);
    QuotedReads(name, rest, false);
    NoBackslashes(name);
  }

  const MAX_GTID_LITERAL_LENGTH := 200

  predicate GtidChar(c: char)
  {
    '0' <= c <= '9' || 'a' <= c <= 'f' || 'A' <= c <= 'F' || c == ':' || c == '-'
  }

  predicate ValidGtid(s: string)
  {
    0 < |s| <= MAX_GTID_LITERAL_LENGTH && forall i :: 0 <= i < |s| ==> GtidChar(s[i])
  }

  /** The arguments with which SkipNextTransaction issues any SQL. */
  predicate Accepts(channel: string, gtid: string) { channel != "" && ValidGtid(gtid) }

  method ValidGTIDLiteral(s: string) returns (ok: bool)
    ensures ok <==> ValidGtid(s)
    ensures ok <==>
      && 0 < |s| <= 200
      && forall i :: 0 <= i < |s| ==>
           '0' <= s[i] <= '9' || 'a' <= s[i] <= 'f' || 'A' <= s[i] <= 'F' || s[i] == ':' || s[i] == '-'
  {
    if |s| == 0 || |s| > MAX_GTID_LITERAL_LENGTH {
      return false;
    }
    for i := 0 to |s|
      invariant forall j :: 0 <= j < i ==> GtidChar(s[j])
    {
      if !GtidChar(s[i]) {
        return false;
      }
    }
    return true;
  }

  /** A valid GTID, embedded as it is, is read back as it is in either mode. */
  lemma {:induction false} GtidReads(s: string, rest: string, escapes: bool)
    requires forall i :: 0 <= i < |s| ==> GtidChar(s[i])
    requires rest == "" || rest[0] != '\''
    ensures Read(s + "'" + rest, escapes) == Some(Literal(s, rest))
  {
    if s == "" {
      assert s + "'" + rest == "'" + rest;
      assert ("'" + rest)[1..] == rest;
    } else {
      GtidReads(s[1..], rest, escapes);
      assert s[1..] + "'" + rest == (s + "'" + rest)[1..];
      assert s == [s[0]] + s[1..];
    }
  }
}
