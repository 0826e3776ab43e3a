/** Composite keys (`base:field`) and the properties-blob parser they rely on:
    `get_value` and `property_str_to_dict`. A blob holds one `key=value` pair per
    line; lines that start with `#` and empty lines are skipped, every other
    line is stripped and split on its first `=`, and a later duplicate key
    overrides an earlier one. */
module Properties {
  import opened Results
  import opened Document

  /** Line boundaries recognised by Python's `str.splitlines`. */
  predicate IsLineBreak(c: char) {
    c == '\n' || c == '\r' || c == '\U{000B}' || c == '\U{000C}' || c == '\U{001C}' || c == '\U{001D}'
    || c == '\U{001E}' || c == '\U{0085}' || c == '\U{2028}' || c == '\U{2029}'
  }

  /** Whitespace removed by Python's `str.strip`. */
  predicate IsSpace(c: char) {
    c == ' ' || c == '\t' || IsLineBreak(c) || c == '\U{001F}' || c == '\U{00A0}' || c == '\U{1680}'
    || ('\U{2000}' <= c <= '\U{200A}') || c == '\U{202F}' || c == '\U{205F}' || c == '\U{3000}'
  }

  predicate NoBreaks(s: string) {
    forall i :: 0 <= i < |s| ==> !IsLineBreak(s[i])
  }

  /** Index of the first line boundary, or |s| when there is none. */
  function FirstBreak(s: string): (i: nat)
    ensures i <= |s|
    ensures NoBreaks(s[..i])
    ensures i < |s| ==> IsLineBreak(s[i])
  {
    if s == [] || IsLineBreak(s[0]) then 0 else 1 + FirstBreak(s[1..])
  }

  /** `str.splitlines()`: boundaries are dropped, "\r\n" counts as one boundary,
      and there is no empty last line after a final boundary. */
  function SplitLines(s: string): (lines: seq<string>)
    ensures forall i :: 0 <= i < |lines| ==> NoBreaks(lines[i])
    decreases |s|
  {
    if s == [] then []
    else
      var i := FirstBreak(s);
      if i == |s| then [s]
      else
        var next := if s[i] == '\r' && i + 1 < |s| && s[i + 1] == '\n' then i + 2 else i + 1;
        [s[..i]] + SplitLines(s[next..])
  }

  /** Lines each followed by "\n", the way a properties file is written. */
  function Terminated(lines: seq<string>): string {
    if lines == [] then [] else lines[0] + "\n" + Terminated(lines[1..])
  }

  lemma {:induction false} SplitLinesTerminated(lines: seq<string>)
    requires forall i :: 0 <= i < |lines| ==> NoBreaks(lines[i])
    ensures SplitLines(Terminated(lines)) == lines
  {
    if lines != [] {
      var s := Terminated(lines);
      var l := lines[0];
      assert s == l + ("\n" + Terminated(lines[1..]));
      FirstBreakOf(l, "\n" + Terminated(lines[1..]));
      assert s[..|l|] == l;
      assert s[|l| + 1..] == Terminated(lines[1..]);
      SplitLinesTerminated(lines[1..]);
    }
  }

  lemma {:induction false} FirstBreakOf(l: string, rest: string)
    requires NoBreaks(l) && rest != [] && IsLineBreak(rest[0])
    ensures FirstBreak(l + rest) == |l|
  {
    if l != [] {
      assert (l + rest)[1..] == l[1..] + rest;
      FirstBreakOf(l[1..], rest);
    } else {
      assert l + rest == rest;
    }
  }

  /** Number of leading whitespace characters. */
  function LeadingSpace(s: string): (n: nat)
    ensures n <= |s|
    ensures forall i :: 0 <= i < n ==> IsSpace(s[i])
    ensures n < |s| ==> !IsSpace(s[n])
  {
    if s != [] && IsSpace(s[0]) then 1 + LeadingSpace(s[1..]) else 0
  }

  /** Number of trailing whitespace characters. */
  function TrailingSpace(s: string): (n: nat)
    ensures n <= |s|
    ensures forall i :: |s| - n <= i < |s| ==> IsSpace(s[i])
    ensures n < |s| ==> !IsSpace(s[|s| - n - 1])
  {
    if s != [] && IsSpace(s[|s| - 1]) then 1 + TrailingSpace(s[..|s| - 1]) else 0
  }

  /** `str.strip()`: the text between the leading and the trailing whitespace. */
  function Strip(s: string): (r: string)
    ensures LeadingSpace(s) + |r| <= |s|
    ensures r == s[LeadingSpace(s)..LeadingSpace(s) + |r|]
    ensures r != [] ==> !IsSpace(r[0]) && !IsSpace(r[|r| - 1])
    ensures forall i :: LeadingSpace(s) + |r| <= i < |s| ==> IsSpace(s[i])
  {
    var t := s[LeadingSpace(s)..];
    t[..|t| - TrailingSpace(t)]
  }

  lemma StripUnchanged(s: string)
    requires s != [] && !IsSpace(s[0]) && !IsSpace(s[|s| - 1])
    ensures Strip(s) == s
  {
    assert LeadingSpace(s) == 0;
    assert TrailingSpace(s) == 0;
  }

  /** `s.split(c, 1)`: the text before the first `c` and everything after it. */
  function SplitOnce(s: string, c: char): (r: Option<(string, string)>)
    ensures r.None? <==> c !in s
    ensures r.Some? ==> s == r.value.0 + [c] + r.value.1 && c !in r.value.0
  {
    if s == [] then None
    else if s[0] == c then Some(([], s[1..]))
    else match SplitOnce(s[1..], c)
      case None => None
      case Some((before, after)) =>
        assert s == [s[0]] + s[1..];
        Some(([s[0]] + before, after))
  }

  /** Splitting at the first `c` recovers the parts it was joined from, so
      the part after it may itself contain `c`. */
  lemma {:induction false} SplitOnceJoin(before: string, c: char, after: string)
    requires c !in before
    ensures SplitOnce(before + [c] + after, c) == Some((before, after))
  {
    var s := before + [c] + after;
    if before != [] {
      assert s[1..] == before[1..] + [c] + after;
      SplitOnceJoin(before[1..], c, after);
      assert [s[0]] + before[1..] == before;
    } else {
      assert s[1..] == after;
    }
  }

  /** A line that takes part in the parse: not empty and not a `#` comment. */
  predicate Retained(line: string) {
    line != [] && line[0] != '#'
  }

  /** One retained line: stripped, then split on its first `=`; a line without
      `=` makes `dict()` raise a ValueError. */
  function ParseLine(line: string): (r: Result<(string, string)>)
    ensures r.Ok? <==> '=' in Strip(line)
    ensures r.Ok? ==> Strip(line) == r.value.0 + "=" + r.value.1 && '=' !in r.value.0
  {
    match SplitOnce(Strip(line), '=')
    case None => Err(MalformedProperty(line))
    case Some(kv) => Ok(kv)
  }

  /** The retained lines, in order. */
  function Kept(lines: seq<string>): (r: seq<string>)
    ensures |r| <= |lines|
    ensures forall j :: 0 <= j < |r| ==> Retained(r[j])
  {
    if lines == [] then []
    else if Retained(lines[0]) then [lines[0]] + Kept(lines[1..])
    else Kept(lines[1..])
  }

  /** Every retained line holds `=` once stripped. */
  predicate AllPairs(lines: seq<string>) {
    forall i :: 0 <= i < |lines| && Retained(lines[i]) ==> '=' in Strip(lines[i])
  }

  /** The key/value pairs of the retained lines, in order; the first malformed line aborts. */
  function Entries(lines: seq<string>): (r: Result<seq<(string, string)>>)
    ensures r.Ok? ==> |r.value| <= |lines|
    ensures r.Err? ==> r.error.MalformedProperty?
  {
    if lines == [] then Ok([])
    else if !Retained(lines[0]) then Entries(lines[1..])
    else
      var kv :- ParseLine(lines[0]);
      var rest :- Entries(lines[1..]);
      Ok([kv] + rest)
  }

  /** The parse succeeds exactly when every retained line holds `=` once
      stripped; it then has one pair per retained line, pair j being the parse
      of the j-th retained line, and otherwise its error names the first
      retained line without `=`. */
  lemma EntriesOfKept(lines: seq<string>)
    ensures Entries(lines).Ok? <==> AllPairs(lines)
    ensures Entries(lines).Ok? ==> |Entries(lines).value| == |Kept(lines)|
    ensures Entries(lines).Ok? ==> forall j :: 0 <= j < |Kept(lines)| ==> ParseLine(Kept(lines)[j]) == Ok(Entries(lines).value[j])
    ensures Entries(lines).Err? ==> exists i :: 0 <= i < |lines| && Retained(lines[i]) && '=' !in Strip(lines[i]) &&
                                              Entries(lines).error == MalformedProperty(lines[i]) &&
                                              AllPairs(lines[..i])
  {
    EntriesOk(lines);
    if Entries(lines).Ok? {
      EntriesKept(lines);
    } else {
      EntriesErr(lines);
    }
  }

  lemma {:induction false} EntriesOk(lines: seq<string>)
    ensures Entries(lines).Ok? <==> AllPairs(lines)
  {
    if lines != [] {
      EntriesOk(lines[1..]);
      AllPairsCons(lines);
    }
  }

  lemma {:induction false} EntriesKept(lines: seq<string>)
    requires Entries(lines).Ok?
    ensures |Entries(lines).value| == |Kept(lines)|
    ensures forall j :: 0 <= j < |Kept(lines)| ==> ParseLine(Kept(lines)[j]) == Ok(Entries(lines).value[j])
  {
    if lines != [] {
      var tail := lines[1..];
      EntriesKept(tail);
      if Retained(lines[0]) {
        var kv := ParseLine(lines[0]).value;
        assert Entries(lines).value == [kv] + Entries(tail).value;
        assert Kept(lines) == [lines[0]] + Kept(tail);
      }
    }
  }

  lemma {:induction false} EntriesErr(lines: seq<string>)
    requires Entries(lines).Err?
    ensures exists i :: 0 <= i < |lines| && Retained(lines[i]) && '=' !in Strip(lines[i]) &&
                        Entries(lines).error == MalformedProperty(lines[i]) && AllPairs(lines[..i])
  {
    var tail := lines[1..];
    if Retained(lines[0]) && ParseLine(lines[0]).Err? {
      assert AllPairs(lines[..0]);
      assert Retained(lines[0]) && '=' !in Strip(lines[0]) && Entries(lines).error == MalformedProperty(lines[0]);
    } else {
      EntriesErr(tail);
      var i :| 0 <= i < |tail| && Retained(tail[i]) && '=' !in Strip(tail[i]) &&
               Entries(tail).error == MalformedProperty(tail[i]) && AllPairs(tail[..i]);
      assert lines[i + 1] == tail[i];
      assert lines[..i + 1][1..] == tail[..i];
      AllPairsCons(lines[..i + 1]);
    }
  }

  /** `AllPairs` of a non-empty list: the first line, then the rest. */
  lemma AllPairsCons(lines: seq<string>)
    requires lines != []
    ensures AllPairs(lines) <==> (Retained(lines[0]) ==> '=' in Strip(lines[0])) && AllPairs(lines[1..])
  {
    if AllPairs(lines) {
      forall i | 0 <= i < |lines[1..]| && Retained(lines[1..][i]) ensures '=' in Strip(lines[1..][i]) {
        assert lines[1..][i] == lines[i + 1];
      }
    }
    if (Retained(lines[0]) ==> '=' in Strip(lines[0])) && AllPairs(lines[1..]) {
      forall i | 0 <= i < |lines| && Retained(lines[i]) ensures '=' in Strip(lines[i]) {
        if i > 0 { assert lines[i] == lines[1..][i - 1]; }
      }
    }
  }

  /** Pair `i` is the last one with its key. */
  predicate LastWithKey(pairs: seq<(string, string)>, i: nat)
    requires i < |pairs|
  {
    forall j :: i < j < |pairs| ==> pairs[j].0 != pairs[i].0
  }

  /** `dict(pairs)`: pairs are entered in order, so a later pair overrides an earlier one. */
  function ToDict(pairs: seq<(string, string)>): map<string, string> {
    if pairs == [] then map[]
    else ToDict(pairs[..|pairs| - 1])[pairs[|pairs| - 1].0 := pairs[|pairs| - 1].1]
  }

  /** The keys of `dict(pairs)` are exactly the pairs' keys. */
  lemma {:induction false} ToDictKeys(pairs: seq<(string, string)>)
    ensures forall k :: k in ToDict(pairs) <==> exists i :: 0 <= i < |pairs| && pairs[i].0 == k
  {
    if pairs != [] {
      var n := |pairs| - 1;
      var init := pairs[..n];
      ToDictKeys(init);
      assert ToDict(pairs) == ToDict(init)[pairs[n].0 := pairs[n].1];
      forall k | k in ToDict(pairs) ensures exists i :: 0 <= i < |pairs| && pairs[i].0 == k {
        if k != pairs[n].0 {
          assert k in ToDict(init);
          var i :| 0 <= i < n && init[i].0 == k;
          assert pairs[i].0 == k;
        }
      }
      forall k, i | 0 <= i < |pairs| && pairs[i].0 == k ensures k in ToDict(pairs) {
        if i < n { assert init[i].0 == k; }
      }
    }
  }

  /** Each key of `dict(pairs)` maps to the value of its last pair. */
  lemma {:induction false} ToDictLast(pairs: seq<(string, string)>, i: nat)
    requires i < |pairs| && LastWithKey(pairs, i)
    ensures pairs[i].0 in ToDict(pairs) && ToDict(pairs)[pairs[i].0] == pairs[i].1
  {
    var n := |pairs| - 1;
    if i < n {
      var init := pairs[..n];
      assert pairs[n].0 != pairs[i].0;
      assert init[i] == pairs[i];
      assert LastWithKey(init, i) by {
        forall j | i < j < n ensures init[j].0 != init[i].0 {
          assert init[j] == pairs[j];
        }
      }
      ToDictLast(init, i);
    }
  }

  /** `property_str_to_dict`. */
  function PropertyStrToDict(blob: string): (r: Result<map<string, string>>)
    ensures r.Ok? <==> AllPairs(SplitLines(blob))
    ensures r.Err? ==> r.error.MalformedProperty?
  {
    EntriesOfKept(SplitLines(blob));
    var pairs :- Entries(SplitLines(blob));
    Ok(ToDict(pairs))
  }

  /** A parsed blob is the dictionary of its retained lines' pairs, in order:
      its keys are their keys, and each key holds the value of its last pair. */
  lemma ParsedBlob(blob: string)
    requires PropertyStrToDict(blob).Ok?
    ensures var kept, pairs, d := Kept(SplitLines(blob)), Entries(SplitLines(blob)).value, PropertyStrToDict(blob).value;
      && |pairs| == |kept|
      && (forall j :: 0 <= j < |pairs| ==> ParseLine(kept[j]) == Ok(pairs[j]))
      && (forall k :: k in d <==> exists j :: 0 <= j < |pairs| && pairs[j].0 == k)
      && (forall j :: 0 <= j < |pairs| && LastWithKey(pairs, j) ==> pairs[j].0 in d && d[pairs[j].0] == pairs[j].1)
  {
    EntriesOfKept(SplitLines(blob));
    var pairs := Entries(SplitLines(blob)).value;
    ToDictKeys(pairs);
    forall j | 0 <= j < |pairs| && LastWithKey(pairs, j)
      ensures pairs[j].0 in ToDict(pairs) && ToDict(pairs)[pairs[j].0] == pairs[j].1
    {
      ToDictLast(pairs, j);
    }
  }

  /** A line `key=value` that survives the filter and the strip unchanged. */
  predicate WellFormedPair(key: string, value: string) {
    key != [] && key[0] != '#' && !IsSpace(key[0]) && '=' !in key
    && (value == [] || !IsSpace(value[|value| - 1]))
    && NoBreaks(key) && NoBreaks(value)
  }

  function Line(kv: (string, string)): string {
    kv.0 + "=" + kv.1
  }

  function Lines(pairs: seq<(string, string)>): seq<string> {
    seq(|pairs|, i requires 0 <= i < |pairs| => Line(pairs[i]))
  }

  function Serialize(pairs: seq<(string, string)>): string {
    Terminated(Lines(pairs))
  }

  /** Writing pairs as a properties blob and parsing it back yields the pairs'
      dictionary: values may contain `=`, and for a repeated key the last wins. */
  lemma PropertyRoundTrip(pairs: seq<(string, string)>)
    requires forall i :: 0 <= i < |pairs| ==> WellFormedPair(pairs[i].0, pairs[i].1)
    ensures PropertyStrToDict(Serialize(pairs)) == Ok(ToDict(pairs))
  {
    var lines := Lines(pairs);
    forall i | 0 <= i < |lines| ensures NoBreaks(lines[i]) {
      LineNoBreaks(pairs[i]);
    }
    SplitLinesTerminated(lines);
    EntriesOfLines(pairs);
  }

  lemma LineNoBreaks(kv: (string, string))
    requires NoBreaks(kv.0) && NoBreaks(kv.1)
    ensures NoBreaks(Line(kv))
  {
    var l := Line(kv);
    forall j | 0 <= j < |l| ensures !IsLineBreak(l[j]) {
      if j < |kv.0| { assert l[j] == kv.0[j]; }
      else if j > |kv.0| { assert l[j] == kv.1[j - |kv.0| - 1]; }
    }
  }

  lemma {:induction false} EntriesOfLines(pairs: seq<(string, string)>)
    requires forall i :: 0 <= i < |pairs| ==> WellFormedPair(pairs[i].0, pairs[i].1)
    ensures Entries(Lines(pairs)) == Ok(pairs)
  {
    if pairs != [] {
      LineParses(pairs[0]);
      EntriesOfLines(pairs[1..]);
      LinesCons(pairs);
      EntriesCons(Line(pairs[0]), Lines(pairs[1..]), pairs[0], pairs[1..]);
      assert [pairs[0]] + pairs[1..] == pairs;
    }
  }

  lemma LinesCons(pairs: seq<(string, string)>)
    requires pairs != []
    ensures Lines(pairs) == [Line(pairs[0])] + Lines(pairs[1..])
  {
  }

  lemma EntriesCons(line: string, rest: seq<string>, kv: (string, string), tail: seq<(string, string)>)
    requires Retained(line) && ParseLine(line) == Ok(kv) && Entries(rest) == Ok(tail)
    ensures Entries([line] + rest) == Ok([kv] + tail)
  {
    assert ([line] + rest)[1..] == rest;
  }

  /** A well-formed pair's line is retained and parses back to the pair. */
  lemma LineParses(kv: (string, string))
    requires WellFormedPair(kv.0, kv.1)
    ensures Retained(Line(kv)) && ParseLine(Line(kv)) == Ok(kv)
  {
    var l := Line(kv);
    assert l[0] == kv.0[0];
    if kv.1 == [] { assert l[|l| - 1] == '='; } else { assert l[|l| - 1] == kv.1[|kv.1| - 1]; }
    StripUnchanged(l);
    SplitOnceJoin(kv.0, '=', kv.1);
  }

  /** `get_value(key, extractor)`: with no `:` in the key, the extractor's
      result; otherwise the key is split on its first `:`, the extractor reads
      the base and the field is looked up in the parsed blob (a KeyError when
      absent). */
  function GetValue(key: string, extract: string -> Result<Doc>): (r: Result<Doc>)
    ensures ':' !in key ==> r == extract(key)
    ensures ':' in key && r.Ok? ==> r.value.Leaf? && r.value.v.Text?
    ensures ':' in key && r.Err? ==>
              || r == extract(SplitOnce(key, ':').value.0)
              || r.error == TypeMismatch || r.error.MalformedProperty? || r.error.KeyNotFound?
  {
    match SplitOnce(key, ':')
    case None => extract(key)
    case Some((base, field)) =>
      var raw :- extract(base);
      if !(raw.Leaf? && raw.v.Text?) then Err(TypeMismatch)
      else
        var props :- PropertyStrToDict(raw.v.s);
        if field in props then Ok(Leaf(Text(props[field]))) else Err(KeyNotFound(field))
  }

  /** A composite key `base:field` reads `base` and selects `field` from the blob;
      only the first `:` separates, so the field may itself contain `:`. */
  lemma GetValueComposite(base: string, field: string, extract: string -> Result<Doc>, blob: string)
    requires ':' !in base
    requires extract(base) == Ok(Leaf(Text(blob)))
    requires PropertyStrToDict(blob).Ok?
    ensures GetValue(base + ":" + field, extract) ==
              (var props := PropertyStrToDict(blob).value;
               if field in props then Ok(Leaf(Text(props[field]))) else Err(KeyNotFound(field)))
  {
    SplitOnceJoin(base, ':', field);
  }

  /** Comment lines and empty lines take no part in the parse: inserting one
      anywhere leaves the entries unchanged. */
  lemma {:induction false} IgnoredLineSkipped(before: seq<string>, ignored: string, after: seq<string>)
    requires !Retained(ignored)
    ensures Entries(before + [ignored] + after) == Entries(before + after)
  {
    if before == [] {
      assert (before + [ignored] + after)[1..] == after;
      assert before + after == after;
    } else {
      assert (before + [ignored] + after)[1..] == before[1..] + [ignored] + after;
      assert (before + after)[1..] == before[1..] + after;
      IgnoredLineSkipped(before[1..], ignored, after);
    }
  }
}
