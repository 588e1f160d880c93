/** The Cookie header: pairs joined by semicolons, the last value of a name winning. */
module Cookies {
  import opened Text
  import opened Words

  /** str::trim_matches: every quote at either end goes. */
  function TrimQuotes(s: string): string
    decreases |s|
  {
    if s != "" && s[0] == '"' then TrimQuotes(s[1..])
    else if s != "" && s[|s| - 1] == '"' then TrimQuotes(s[..|s| - 1])
    else s
  }

  /** What one part between semicolons contributes. */
  function Entered(m: map<string, string>, part: string): map<string, string> {
    match SplitOnce(Trim(part), '=')
    case Some(kv) => m[Trim(kv.0) := TrimQuotes(Trim(kv.1))]
    case None => m
  }

  function Parsed(parts: seq<string>, m: map<string, string>): map<string, string> {
    if parts == [] then m else Parsed(parts[1..], Entered(m, parts[0]))
  }

  method ParseCookieHeader(header: string) returns (out: map<string, string>)
    ensures out == Parsed(Split(header, ';'), map[])
  {
    out := map[];
    var parts := Split(header, ';');
    var i := 0;
    while i < |parts|
      invariant i <= |parts| && Parsed(parts[i..], out) == Parsed(parts, map[])
    {
      ghost var before := out;
      var part := Trim(parts[i]);
      if part != "" {
        var kv := SplitOnce(part, '=');
        if kv.Some? { out := out[Trim(kv.value.0) := TrimQuotes(Trim(kv.value.1))]; }
      }
      assert out == Entered(before, parts[i]);
      assert parts[i..][1..] == parts[i + 1..];
      i := i + 1;
    }
  }

  // ---- What a part contributes ----

  predicate Spaces(s: string) {
    forall i | 0 <= i < |s| :: IsSpace(s[i])
  }

  lemma {:induction false} StartSkips(b: string, s: string)
    requires Spaces(b)
    ensures TrimStart(b + s) == TrimStart(s)
  {
    if b == "" {
      assert b + s == s;
    } else {
      assert (b + s)[1..] == b[1..] + s;
      StartSkips(b[1..], s);
    }
  }

  lemma {:induction false} EndSkips(s: string, b: string)
    requires Spaces(b)
    ensures TrimEnd(s + b) == TrimEnd(s)
  {
    if b == "" {
      assert s + b == s;
    } else {
      var n := |b| - 1;
      assert (s + b)[..|s + b| - 1] == s + b[..n];
      EndSkips(s, b[..n]);
    }
  }

  /** A text is its own trimmed form between blanks. */
  lemma {:induction false} StartSplits(s: string) returns (b: string)
    ensures Spaces(b) && s == b + TrimStart(s) && (TrimStart(s) != "" ==> !IsSpace(TrimStart(s)[0]))
  {
    if s != "" && IsSpace(s[0]) {
      b := StartSplits(s[1..]);
      b := [s[0]] + b;
    } else {
      b := "";
    }
  }

  lemma {:induction false} EndSplits(s: string) returns (b: string)
    ensures Spaces(b) && s == TrimEnd(s) + b && (TrimEnd(s) != "" ==> !IsSpace(TrimEnd(s)[|TrimEnd(s)| - 1]))
  {
    if s != "" && IsSpace(s[|s| - 1]) {
      b := EndSplits(s[..|s| - 1]);
      b := b + [s[|s| - 1]];
    } else {
      b := "";
    }
  }

  lemma StartThenEnd(s: string)
    requires Spaces(s)
    ensures Trim(s) == ""
  {
    StartSkips(s, "");
    assert s + "" == s;
  }

  /** Blanks around a text do not matter, whatever the text. */
  lemma TrimIgnoresBlanks(before: string, s: string, after: string)
    requires Spaces(before) && Spaces(after)
    ensures Trim(before + s + after) == Trim(s)
  {
    assert before + s + after == before + (s + after);
    StartSkips(before, s + after);
    var b := StartSplits(s);
    var core := TrimStart(s);
    assert s + after == b + (core + after);
    StartSkips(b, core + after);
    if core == "" {
      assert core + after == after;
      StartThenEnd(after);
      assert TrimStart(core + after) == TrimStart(after);
    } else {
      assert (core + after)[0] == core[0];
      EndSkips(core, after);
    }
  }

  lemma PairTrimmed(n: string, v: string)
    requires n != "" ==> !IsSpace(n[0])
    requires v != "" ==> !IsSpace(v[|v| - 1])
    ensures Trim(n + "=" + v) == n + "=" + v
  {
    var core := n + "=" + v;
    assert core[0] == if n == "" then '=' else n[0];
    assert core[|core| - 1] == if v == "" then '=' else v[|v| - 1];
    TrimTrimmed(core);
  }

  lemma SameTrim(before: string, s: string, after: string, all: string)
    requires Spaces(before) && Spaces(after) && all == before + s + after
    ensures Trim(all) == Trim(s)
  {
    TrimIgnoresBlanks(before, s, after);
  }

  lemma Reassociated(b: string, n: string, v: string, a: string)
    ensures (b + n) + "=" + (v + a) == b + (n + "=" + v) + a
  {
  }

  /** The blanks around a part are those before its name and those after its value. */
  lemma PartTrimmed(name: string, value: string)
    ensures Trim(name + "=" + value) == TrimStart(name) + "=" + TrimEnd(value)
  {
    var b := StartSplits(name);
    var a := EndSplits(value);
    var (n, v) := (TrimStart(name), TrimEnd(value));
    Reassociated(b, n, v, a);
    SameTrim(b, n + "=" + v, a, name + "=" + value);
    PairTrimmed(n, v);
  }

  lemma NameTrimmed(name: string)
    ensures Trim(TrimStart(name)) == Trim(name)
  {
    var b := StartSplits(name);
    assert TrimStart(TrimStart(name)) == TrimStart(name);
  }

  lemma ValueTrimmed(value: string)
    ensures Trim(TrimEnd(value)) == Trim(value)
  {
    var a := EndSplits(value);
    TrimIgnoresBlanks("", TrimEnd(value), a);
    assert "" + TrimEnd(value) + a == TrimEnd(value) + a;
  }

  /** A part with an equals sign enters one pair: what stands before the first one as the name, what comes
      after it as the value, each without the blanks around it, and the value without its quotes. */
  lemma EnteredExactly(m: map<string, string>, name: string, value: string)
    requires '=' !in name
    ensures Entered(m, name + "=" + value) == m[Trim(name) := TrimQuotes(Trim(value))]
  {
    PartTrimmed(name, value);
    NameTrimmed(name);
    ValueTrimmed(value);
    StartKeepsOut(name, '=');
    SplitOnceAt(TrimStart(name), TrimEnd(value), '=');
  }

  lemma {:induction false} StartKeepsOut(s: string, c: char)
    requires c !in s
    ensures c !in TrimStart(s)
  {
    if s != "" { StartKeepsOut(s[1..], c); }
  }

  lemma {:induction false} EndKeepsOut(s: string, c: char)
    requires c !in s
    ensures c !in TrimEnd(s)
  {
    if s != "" { EndKeepsOut(s[..|s| - 1], c); }
  }

  /** A part without one, an empty or a blank one among them, enters nothing. */
  lemma NothingEntered(m: map<string, string>, part: string)
    requires '=' !in part
    ensures Entered(m, part) == m
  {
    StartKeepsOut(part, '=');
    EndKeepsOut(TrimStart(part), '=');
    SplitNone(Trim(part), '=');
  }

  // ---- Printing and parsing ----

  datatype Pair = Pair(name: string, value: string)

  /** A pair that survives the header: no separators where they would be read as such, and no white
      space at the ends. Quotes and equals signs in the value are allowed, and empty names too. */
  predicate WellFormed(p: Pair) {
    && ';' !in p.name && '=' !in p.name && Trimmed(p.name)
    && ';' !in p.value && Trimmed(p.value)
  }

  function Shown(p: Pair): string {
    p.name + "=" + p.value
  }

  /** Pairs joined by "; ", as section 4.2.1 of RFC 6265 has them. */
  function Header(pairs: seq<Pair>): string {
    if pairs == [] then "" else if |pairs| == 1 then Shown(pairs[0]) else Shown(pairs[0]) + "; " + Header(pairs[1..])
  }

  /** Enter the pairs one after the other. */
  function Dictionary(pairs: seq<Pair>, m: map<string, string>): map<string, string> {
    if pairs == [] then m else Dictionary(pairs[1..], m[pairs[0].name := TrimQuotes(pairs[0].value)])
  }

  lemma ShownEnds(p: Pair)
    requires WellFormed(p)
    ensures Trimmed(Shown(p)) && Shown(p) != ""
  {
    var s := Shown(p);
    assert s[0] == if p.name == "" then '=' else p.name[0];
    assert s[|s| - 1] == if p.value == "" then '=' else p.value[|p.value| - 1];
  }

  lemma TrimLead(s: string, lead: string)
    requires Trimmed(s) && s != "" && (lead == "" || lead == " ")
    ensures TrimStart(lead + s) == s
  {
    if lead == "" { assert lead + s == s; } else { assert (lead + s)[1..] == s; }
  }

  lemma TrimShown(p: Pair, lead: string)
    requires WellFormed(p) && (lead == "" || lead == " ")
    ensures Trim(lead + Shown(p)) == Shown(p)
  {
    ShownEnds(p);
    TrimLead(Shown(p), lead);
  }

  /** A printed pair, with or without the space before it, is entered as the pair. */
  lemma EnterShown(m: map<string, string>, p: Pair, lead: string)
    requires WellFormed(p) && (lead == "" || lead == " ")
    ensures Entered(m, lead + Shown(p)) == m[p.name := TrimQuotes(p.value)]
  {
    TrimShown(p, lead);
    SplitOnceAt(p.name, p.value, '=');
    TrimTrimmed(p.name);
    TrimTrimmed(p.value);
  }

  lemma FirstPlain(p: Pair, lead: string)
    requires WellFormed(p) && (lead == "" || lead == " ")
    ensures ';' !in lead + Shown(p)
  {
  }

  lemma Regroup(lead: string, first: string, rest: string)
    ensures lead + (first + "; " + rest) == lead + first + ";" + (" " + rest)
  {
  }

  /** The header falls apart again at the first semicolon. */
  lemma HeaderSplit(pairs: seq<Pair>, lead: string)
    requires |pairs| > 1 && WellFormed(pairs[0]) && (lead == "" || lead == " ")
    ensures Split(lead + Header(pairs), ';') == [lead + Shown(pairs[0])] + Split(" " + Header(pairs[1..]), ';')
  {
    var (shown, rest) := (Shown(pairs[0]), Header(pairs[1..]));
    FirstPlain(pairs[0], lead);
    calc {
      Split(lead + Header(pairs), ';');
      Split(lead + (shown + "; " + rest), ';');
      { Regroup(lead, shown, rest); }
      Split(lead + shown + ";" + (" " + rest), ';');
      { SplitAt(lead + shown, " " + rest, ';'); }
      [lead + shown] + Split(" " + rest, ';');
    }
  }

  lemma {:induction false} ParseFrom(pairs: seq<Pair>, m: map<string, string>, lead: string)
    requires |pairs| > 0 && (forall i | 0 <= i < |pairs| :: WellFormed(pairs[i])) && (lead == "" || lead == " ")
    ensures Parsed(Split(lead + Header(pairs), ';'), m) == Dictionary(pairs, m)
    decreases |pairs|
  {
    var first := lead + Shown(pairs[0]);
    var m' := m[pairs[0].name := TrimQuotes(pairs[0].value)];
    EnterShown(m, pairs[0], lead);
    if |pairs| == 1 {
      FirstPlain(pairs[0], lead);
      SplitNone(first, ';');
      assert [first][1..] == [] && pairs[1..] == [];
    } else {
      HeaderSplit(pairs, lead);
      var more := Split(" " + Header(pairs[1..]), ';');
      ParseFrom(pairs[1..], m', " ");
      assert ([first] + more)[1..] == more;
    }
  }

  /** Printing a list of well-formed pairs and parsing the header yields their dictionary. */
  lemma RoundTrip(pairs: seq<Pair>)
    requires forall i | 0 <= i < |pairs| :: WellFormed(pairs[i])
    ensures Parsed(Split(Header(pairs), ';'), map[]) == Dictionary(pairs, map[])
  {
    if pairs == [] {
      SplitNone("", ';');
      assert Entered(map[], "") == map[];
      assert [""][1..] == [];
    } else {
      ParseFrom(pairs, map[], "");
      assert "" + Header(pairs) == Header(pairs);
    }
  }

  lemma {:induction false} Untouched(pairs: seq<Pair>, m: map<string, string>, name: string)
    requires forall i | 0 <= i < |pairs| :: pairs[i].name != name
    ensures name in Dictionary(pairs, m) <==> name in m
    ensures name in m ==> Dictionary(pairs, m)[name] == m[name]
    decreases |pairs|
  {
    if pairs != [] { Untouched(pairs[1..], m[pairs[0].name := TrimQuotes(pairs[0].value)], name); }
  }

  /** The dictionary has, for each name in the list, the value that comes last. */
  lemma {:induction false} LastValueWins(pairs: seq<Pair>, m: map<string, string>, i: nat)
    requires i < |pairs| && forall j | i < j < |pairs| :: pairs[j].name != pairs[i].name
    ensures pairs[i].name in Dictionary(pairs, m)
    ensures Dictionary(pairs, m)[pairs[i].name] == TrimQuotes(pairs[i].value)
    decreases |pairs|
  {
    var m' := m[pairs[0].name := TrimQuotes(pairs[0].value)];
    if i == 0 { Untouched(pairs[1..], m', pairs[0].name); } else { LastValueWins(pairs[1..], m', i - 1); }
  }

  /** And it has no other names. */
  lemma OnlyListedNames(pairs: seq<Pair>, name: string)
    requires name in Dictionary(pairs, map[])
    ensures exists i :: 0 <= i < |pairs| && pairs[i].name == name
  {
    if forall i | 0 <= i < |pairs| :: pairs[i].name != name { Untouched(pairs, map[], name); }
  }

  predicate AllQuotes(s: string) {
    forall i | 0 <= i < |s| :: s[i] == '"'
  }

  /** No quote at either end. */
  predicate Bare(s: string) {
    s != "" ==> s[0] != '"' && s[|s| - 1] != '"'
  }

  /** Any number of quotes on either side of a bare text go, and nothing of the text does. */
  lemma {:induction false} QuotesRemoved(before: string, core: string, after: string)
    requires AllQuotes(before) && AllQuotes(after) && Bare(core)
    ensures TrimQuotes(before + core + after) == core
    decreases |before| + |after|
  {
    var s := before + core + after;
    if before != "" {
      assert s[1..] == before[1..] + core + after;
      QuotesRemoved(before[1..], core, after);
    } else if core == "" && after != "" {
      assert s[1..] == "" + core + after[1..];
      QuotesRemoved("", core, after[1..]);
    } else if after != "" {
      assert s[..|s| - 1] == before + core + after[..|after| - 1];
      QuotesRemoved(before, core, after[..|after| - 1]);
    } else {
      assert s == core;
    }
  }

  /** Every value is such a text between such quotes, so that says what becomes of all of them. */
  lemma {:induction false} QuotesAndCore(v: string) returns (before: string, core: string, after: string)
    ensures v == before + core + after && AllQuotes(before) && AllQuotes(after) && Bare(core)
    ensures TrimQuotes(v) == core
    decreases |v|
  {
    before, core, after := "", v, "";
    if v != "" && v[0] == '"' {
      before, core, after := QuotesAndCore(v[1..]);
      before := [v[0]] + before;
    } else if v != "" && v[|v| - 1] == '"' {
      before, core, after := QuotesAndCore(v[..|v| - 1]);
      after := after + [v[|v| - 1]];
    }
    assert v == before + core + after;
  }
}
