/**
 * `JSON.stringify` and `JSON.parse` of the six-field user snapshot, as the
 * client writes it to and reads it from browser storage.
 */
module UserJson {
  import opened Wrappers
  import opened Text
  import opened Types

  /** The body of a JSON string literal: quote and backslash are escaped with a backslash. */
  function Escape(s: string): string {
    if s == [] then []
    else (if s[0] == '"' || s[0] == '\\' then ['\\', s[0]] else [s[0]]) + Escape(s[1..])
  }

  function BoolText(b: bool): string {
    if b then "true" else "false"
  }

  /** `JSON.stringify(user)`: the fields in declaration order, no white space. */
  function Stringify(u: User): string {
    "{\"id\":" + (DecimalString(u.id) +
    (",\"email\":\"" + (Escape(u.email) + ("\"" +
    (",\"firstName\":\"" + (Escape(u.firstName) + ("\"" +
    (",\"lastName\":\"" + (Escape(u.lastName) + ("\"" +
    (",\"emailVerified\":" + (BoolText(u.emailVerified) +
    (",\"profileCompleted\":" + (BoolText(u.profileCompleted) + "}"))))))))))))))
  }

  /** What is written is a JSON object, so never one of the texts `getUser` reads as "no user". */
  lemma StringifyIsObject(u: User)
    ensures Stringify(u) != "" && Stringify(u) != "null"
    ensures Stringify(u)[0] == '{' && Stringify(u)[|Stringify(u)| - 1] == '}'
  {
  }

  // ---------------------------------------------------------------------
  // Reading
  // ---------------------------------------------------------------------

  /** What follows `prefix` in `t`, if `t` starts with it. */
  function After(prefix: string, t: string): (r: Option<string>)
    ensures r.Some? <==> prefix <= t
    ensures r.Some? ==> t == prefix + r.value
  {
    if prefix <= t then Some(t[|prefix|..]) else None
  }

  /** A JSON number that is a natural number: digits, no leading zero unless it is `0` itself. */
  function ReadNat(t: string): (r: Option<(nat, string)>)
    ensures r.Some? ==> t == DecimalString(r.value.0) + r.value.1
    ensures r.Some? ==> r.value.1 == [] || !IsDigit(r.value.1[0])
  {
    var n := DigitRun(t);
    if n == 0 || (t[0] == '0' && n > 1) then None
    else
      DecimalStringOfCanonical(t[..n]);
      assert t == t[..n] + t[n..];
      Some((DecimalValue(t[..n]), t[n..]))
  }

  /** The rest of a JSON string literal after its opening quote: its value and what follows the closing quote. */
  function ReadStringBody(t: string): (r: Option<(string, string)>)
    ensures r.Some? ==> t == Escape(r.value.0) + ("\"" + r.value.1)
    decreases |t|
  {
    if t == [] then None
    else if t[0] == '"' then Some(([], t[1..]))
    else if t[0] == '\\' then
      if |t| >= 2 && (t[1] == '"' || t[1] == '\\') then
        var p :- ReadStringBody(t[2..]);
        var v := [t[1]] + p.0;
        assert v[0] == t[1] && v[1..] == p.0;
        assert t == t[..2] + t[2..];
        Some((v, p.1))
      else None
    else
      var p :- ReadStringBody(t[1..]);
      var v := [t[0]] + p.0;
      assert v[0] == t[0] && v[1..] == p.0;
      assert t == [t[0]] + t[1..];
      Some((v, p.1))
  }

  function ReadBool(t: string): (r: Option<(bool, string)>)
    ensures r.Some? <==> "true" <= t || "false" <= t
    ensures r.Some? ==> t == BoolText(r.value.0) + r.value.1
  {
    if "true" <= t then
      assert t == t[..4] + t[4..];
      Some((true, t[4..]))
    else if "false" <= t then
      assert t == t[..5] + t[5..];
      Some((false, t[5..]))
    else None
  }

  /** `JSON.parse` of a stored user entry; `None` where `JSON.parse` would throw or yield another shape. */
  function Parse(s: string): (r: Option<User>)
    ensures r.Some? ==> Stringify(r.value) == s
  {
    var t0 :- After("{\"id\":", s);
    var p1 :- ReadNat(t0);
    var t1 :- After(",\"email\":\"", p1.1);
    var p2 :- ReadStringBody(t1);
    var t2 :- After(",\"firstName\":\"", p2.1);
    var p3 :- ReadStringBody(t2);
    var t3 :- After(",\"lastName\":\"", p3.1);
    var p4 :- ReadStringBody(t3);
    var t4 :- After(",\"emailVerified\":", p4.1);
    var p5 :- ReadBool(t4);
    var t5 :- After(",\"profileCompleted\":", p5.1);
    var p6 :- ReadBool(t5);
    if p6.1 == "}" then Some(User(p1.0, p2.0, p3.0, p4.0, p5.0, p6.0)) else None
  }

  // ---------------------------------------------------------------------
  // Round trip
  // ---------------------------------------------------------------------

  lemma {:induction false} DigitRunOfNumeral(d: string, rest: string)
    requires AllDigits(d)
    requires rest == [] || !IsDigit(rest[0])
    ensures DigitRun(d + rest) == |d|
  {
    if d != [] {
      DigitRunOfNumeral(d[1..], rest);
      assert (d + rest)[1..] == d[1..] + rest;
    }
  }

  lemma ReadNatRoundTrip(n: nat, rest: string)
    requires rest == [] || !IsDigit(rest[0])
    ensures ReadNat(DecimalString(n) + rest) == Some((n, rest))
  {
    var d := DecimalString(n);
    DigitRunOfNumeral(d, rest);
    assert (d + rest)[..|d|] == d;
    assert (d + rest)[|d|..] == rest;
  }

  /** One escaped quote or backslash, then the rest of a literal the reader accepts. */
  lemma ReadEscapedStep(c: char, tail: string, v: string, rest: string)
    requires c == '"' || c == '\\'
    requires ReadStringBody(tail) == Some((v, rest))
    ensures ReadStringBody(['\\', c] + tail) == Some(([c] + v, rest))
  {
    var t := ['\\', c] + tail;
    assert t[0] == '\\' && t[1] == c && t[2..] == tail;
  }

  /** One plain character, then the rest of a literal the reader accepts. */
  lemma ReadPlainStep(c: char, tail: string, v: string, rest: string)
    requires c != '"' && c != '\\'
    requires ReadStringBody(tail) == Some((v, rest))
    ensures ReadStringBody([c] + tail) == Some(([c] + v, rest))
  {
    var t := [c] + tail;
    assert t[0] == c && t[1..] == tail;
  }

  /** Escaping character by character: the first character's escape, then the rest's, then what follows. */
  lemma EscapeFirst(s: string, after: string)
    requires s != []
    ensures Escape(s) + after ==
              (if s[0] == '"' || s[0] == '\\' then ['\\', s[0]] else [s[0]]) + (Escape(s[1..]) + after)
  {
  }

  lemma {:induction false} ReadStringRoundTrip(s: string, rest: string)
    ensures ReadStringBody(Escape(s) + ("\"" + rest)) == Some((s, rest))
  {
    if s == [] {
      assert Escape(s) + ("\"" + rest) == "\"" + rest;
    } else {
      var tail := Escape(s[1..]) + ("\"" + rest);
      ReadStringRoundTrip(s[1..], rest);
      EscapeFirst(s, "\"" + rest);
      assert [s[0]] + s[1..] == s;
      if s[0] == '"' || s[0] == '\\' {
        ReadEscapedStep(s[0], tail, s[1..], rest);
      } else {
        ReadPlainStep(s[0], tail, s[1..], rest);
      }
    }
  }

  lemma ReadBoolRoundTrip(b: bool, rest: string)
    ensures ReadBool(BoolText(b) + rest) == Some((b, rest))
  {
    var t := BoolText(b) + rest;
    if b {
      assert t[..4] == "true";
    } else {
      assert t[0] == 'f';
      assert t[..5] == "false";
    }
  }

  lemma AfterPrefix(prefix: string, rest: string)
    ensures After(prefix, prefix + rest) == Some(rest)
  {
    assert (prefix + rest)[..|prefix|] == prefix;
  }

  /** Reading back what was written yields the same user: `JSON.parse(JSON.stringify(u))` equals `u`. */
  lemma ParseStringify(u: User)
    ensures Parse(Stringify(u)) == Some(u)
  {
    var r6 := BoolText(u.profileCompleted) + "}";
    var r5 := ",\"profileCompleted\":" + r6;
    var r4 := BoolText(u.emailVerified) + r5;
    var r3 := ",\"emailVerified\":" + r4;
    var q3 := Escape(u.lastName) + ("\"" + r3);
    var l3 := ",\"lastName\":\"" + q3;
    var q2 := Escape(u.firstName) + ("\"" + l3);
    var l2 := ",\"firstName\":\"" + q2;
    var q1 := Escape(u.email) + ("\"" + l2);
    var l1 := ",\"email\":\"" + q1;
    var n0 := DecimalString(u.id) + l1;
    assert Stringify(u) == "{\"id\":" + n0;

    AfterPrefix("{\"id\":", n0);
    assert After("{\"id\":", Stringify(u)) == Some(n0);
    ReadNatRoundTrip(u.id, l1);
    assert ReadNat(n0) == Some((u.id, l1));
    AfterPrefix(",\"email\":\"", q1);
    ReadStringRoundTrip(u.email, l2);
    assert ReadStringBody(q1) == Some((u.email, l2));
    AfterPrefix(",\"firstName\":\"", q2);
    ReadStringRoundTrip(u.firstName, l3);
    assert ReadStringBody(q2) == Some((u.firstName, l3));
    AfterPrefix(",\"lastName\":\"", q3);
    ReadStringRoundTrip(u.lastName, r3);
    assert ReadStringBody(q3) == Some((u.lastName, r3));
    AfterPrefix(",\"emailVerified\":", r4);
    ReadBoolRoundTrip(u.emailVerified, r5);
    assert ReadBool(r4) == Some((u.emailVerified, r5));
    AfterPrefix(",\"profileCompleted\":", r6);
    ReadBoolRoundTrip(u.profileCompleted, "}");
    assert ReadBool(r6) == Some((u.profileCompleted, "}"));
  }
}
