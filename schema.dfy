/** The schema-version gate of the Kafka run helper (`schema_validation`): a
    configuration's `major.minor.bugfix` version is accepted when its major
    part equals the supported one and its minor part is not greater, both
    compared as text; the bugfix part is ignored. */
module SchemaGate {
  import opened Results
  import opened Properties

  const SchemaVersionSupport := "1.0.0"

  /** `sep.join(parts)`. */
  function Join(parts: seq<string>, sep: char): string
    requires |parts| >= 1
  {
    if |parts| == 1 then parts[0] else parts[0] + [sep] + Join(parts[1..], sep)
  }

  /** `s.split(sep)`: the text between separators, empty parts kept. */
  function Split(s: string, sep: char): (parts: seq<string>)
    ensures |parts| >= 1
    ensures forall i :: 0 <= i < |parts| ==> sep !in parts[i]
    ensures Join(parts, sep) == s
    decreases |s|
  {
    match SplitOnce(s, sep)
    case None => [s]
    case Some((head, rest)) => [head] + Split(rest, sep)
  }

  /** Splitting the joined parts gives the parts back. */
  lemma {:induction false} SplitJoin(parts: seq<string>, sep: char)
    requires |parts| >= 1 && forall i :: 0 <= i < |parts| ==> sep !in parts[i]
    ensures Split(Join(parts, sep), sep) == parts
    decreases |parts|
  {
    if |parts| > 1 {
      SplitOnceJoin(parts[0], sep, Join(parts[1..], sep));
      SplitJoin(parts[1..], sep);
      assert parts == [parts[0]] + parts[1..];
    } else {
      assert sep !in parts[0];
    }
  }

  /** Python's `<` on strings: code point by code point, a proper prefix first. */
  predicate Less(a: string, b: string)
    decreases |a|
  {
    b != [] && (a == [] || a[0] < b[0] || (a[0] == b[0] && Less(a[1..], b[1..])))
  }

  /** `schema_validation` against a supported version: a version without
      exactly three parts fails to unpack; a different major, or a minor
      that sorts after the supported one, is an AssertionError. */
  function Gate(supported: string, version: string): (r: Result<bool>)
    ensures r.Ok? ==> r.value
    ensures r.Err? && |Split(supported, '.')| == 3 ==> r.error == BadVersion(version) || r.error == Unsupported(version)
    ensures r.Err? && |Split(supported, '.')| == 3 && |Split(version, '.')| == 3 ==> r.error == Unsupported(version)
  {
    var sup := Split(supported, '.');
    var conf := Split(version, '.');
    if |sup| != 3 then Err(BadVersion(supported))
    else if |conf| != 3 then Err(BadVersion(version))
    else if sup[0] == conf[0] && !Less(sup[1], conf[1]) then Ok(true)
    else Err(Unsupported(version))
  }

  /** `schema_validation(schema_version, ...)` with the supported version `1.0.0`. */
  function SchemaValidation(version: string): (r: Result<bool>)
    ensures r.Ok? ==> r.value
    ensures r.Err? ==> r.error == BadVersion(version) || r.error == Unsupported(version)
    ensures r.Err? && |Split(version, '.')| == 3 ==> r.error == Unsupported(version)
  {
    SupportedParts();
    Gate(SchemaVersionSupport, version)
  }

  lemma SupportedParts()
    ensures Split(SchemaVersionSupport, '.') == ["1", "0", "0"]
  {
    SplitJoin(["1", "0", "0"], '.');
  }

  /** The versions the gate accepts: major exactly `1`, and a minor that sorts
      no later than `0` as text: empty, `0`, or starting below the digit `0`. */
  lemma AcceptedVersions(major: string, minor: string, bugfix: string)
    requires '.' !in major && '.' !in minor && '.' !in bugfix
    ensures SchemaValidation(major + "." + minor + "." + bugfix).Ok? <==>
              major == "1" && (minor == "" || minor == "0" || minor[0] < '0')
  {
    assert SchemaVersionSupport == "1" + "." + "0" + "." + "0";
    GateOnParts("1", "0", "0", major, minor, bugfix);
    NotAfterZero(minor);
  }

  /** The minors that do not sort after `0`. */
  lemma NotAfterZero(minor: string)
    ensures !Less("0", minor) <==> minor == "" || minor == "0" || minor[0] < '0'
  {
    if minor != "" && minor[0] == '0' {
      assert Less("0", minor) == Less("", minor[1..]);
      assert minor == "0" <==> minor[1..] == "";
    }
  }

  lemma JoinThree(a: string, b: string, c: string)
    ensures Join([a, b, c], '.') == a + "." + b + "." + c
  {
    assert [a, b, c][1..] == [b, c];
    assert [b, c][1..] == [c];
    assert Join([b, c], '.') == b + "." + c;
  }

  /** A version whose dots do not make exactly three parts is a BadVersion. */
  lemma WrongPartCount(version: string)
    requires |Split(version, '.')| != 3
    ensures SchemaValidation(version) == Err(BadVersion(version))
  {
    SupportedParts();
  }

  /** The bugfix part never decides the outcome. */
  lemma BugfixIgnored(major: string, minor: string, b1: string, b2: string)
    requires '.' !in major && '.' !in minor && '.' !in b1 && '.' !in b2
    ensures SchemaValidation(major + "." + minor + "." + b1).Ok? == SchemaValidation(major + "." + minor + "." + b2).Ok?
  {
    AcceptedVersions(major, minor, b1);
    AcceptedVersions(major, minor, b2);
  }

  /** The gate on two three-part versions compares the majors for equality
      and the minors as text. */
  lemma GateOnParts(major: string, minor: string, bugfix: string, cmajor: string, cminor: string, cbugfix: string)
    requires '.' !in major && '.' !in minor && '.' !in bugfix
    requires '.' !in cmajor && '.' !in cminor && '.' !in cbugfix
    ensures Gate(major + "." + minor + "." + bugfix, cmajor + "." + cminor + "." + cbugfix).Ok? <==>
              major == cmajor && !Less(minor, cminor)
  {
    PartsOf(major, minor, bugfix, major + "." + minor + "." + bugfix);
    PartsOf(cmajor, cminor, cbugfix, cmajor + "." + cminor + "." + cbugfix);
  }

  /** Minors are compared as text, not as numbers: a configured minor whose
      first character sorts after the supported minor's first character is
      refused whatever the lengths, so against a supported `1.10.0` the
      version `1.9.0` is refused. */
  lemma MinorComparedAsText(major: string, minor: string, bugfix: string, cminor: string, cbugfix: string)
    requires '.' !in major && '.' !in minor && '.' !in bugfix && '.' !in cminor && '.' !in cbugfix
    requires minor != [] && cminor != [] && minor[0] < cminor[0]
    ensures Gate(major + "." + minor + "." + bugfix, major + "." + cminor + "." + cbugfix).Err?
  {
    GateOnParts(major, minor, bugfix, major, cminor, cbugfix);
  }

  lemma PartsOf(a: string, b: string, c: string, v: string)
    requires '.' !in a && '.' !in b && '.' !in c && v == a + "." + b + "." + c
    ensures Split(v, '.') == [a, b, c]
  {
    JoinThree(a, b, c);
    SplitJoin([a, b, c], '.');
  }
}
