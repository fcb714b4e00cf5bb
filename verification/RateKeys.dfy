/** Rate keys: when two match, how specific the match is, and their text form. */
module RateKeys {
  import opened Basics
  import opened Charging

  // ---- matching ----

  /** A pair of fields agrees if they are equal or one is the wildcard. */
  predicate FieldsAgree(a: string, b: string) {
    a == "*" || b == "*" || a == b
  }

  predicate DirectionsAgree(a: CallDirection, b: CallDirection) {
    a == ANY || b == ANY || a == b
  }

  function Exact(a: string, b: string): int {
    if a == "*" || b == "*" then 0 else 1
  }

  function ExactDirection(a: CallDirection, b: CallDirection): int {
    if a == ANY || b == ANY then 0 else 1
  }

  /** Two keys match exactly when all five fields agree, whichever of the two is asked, and the score of
      a match is the number of fields in which neither is a wildcard. */
  lemma MatchMeaning(k: RateKey, other: RateKey)
    ensures Matches(k, other) == Matches(other, k)
    ensures Matches(k, other).0 <==>
            && FieldsAgree(k.serviceType, other.serviceType) && FieldsAgree(k.sourceType, other.sourceType)
            && DirectionsAgree(k.serviceDirection, other.serviceDirection)
            && FieldsAgree(k.serviceCategory, other.serviceCategory)
            && FieldsAgree(k.serviceWindow, other.serviceWindow)
    ensures Matches(k, other).0 ==>
            Matches(k, other).1 == Exact(k.serviceType, other.serviceType) + Exact(k.sourceType, other.sourceType)
                                   + ExactDirection(k.serviceDirection, other.serviceDirection)
                                   + Exact(k.serviceCategory, other.serviceCategory)
                                       + Exact(k.serviceWindow, other.serviceWindow)
    ensures 0 <= Matches(k, other).1 <= 5
  {}

  // ---- text ----

  function DirectionText(d: CallDirection): string {
    match d
    case MO => "MO"
    case MF => "MF"
    case MT => "MT"
    case ANY => "*"
  }

  function ParseCallDirection(s: string): Option<CallDirection> {
    if s == "MO" then Some(MO)
    else if s == "MF" then Some(MF)
    else if s == "MT" then Some(MT)
    else if s == "*" then Some(ANY)
    else None
  }

  /** RateKey.String: an empty window is left out. */
  function Text(k: RateKey): string {
    var end := if k.serviceWindow == "" then k.serviceCategory else k.serviceCategory + ("." + k.serviceWindow);
    k.serviceType + ("." + (k.sourceType + ("." + (DirectionText(k.serviceDirection) + ("." + end)))))
  }

  /** strings.Split on dots. */
  function Split(s: string): (parts: seq<string>)
    ensures parts != []
  {
    if s == "" then [""]
    else if s[0] == '.' then [""] + Split(s[1..])
    else var rest := Split(s[1..]); [[s[0]] + rest[0]] + rest[1..]
  }

  function ParseRateKey(s: string): Option<RateKey> {
    var parts := Split(s);
    if |parts| != 4 && |parts| != 5 then None else
    match ParseCallDirection(parts[2])
    case None => None
    case Some(cd) => Some(RateKey(parts[0], parts[1], cd, parts[3], if |parts| == 5 then parts[4] else ""))
  }

  predicate DotFree(s: string) {
    '.' !in s
  }

  predicate Plain(k: RateKey) {
    DotFree(k.serviceType) && DotFree(k.sourceType) && DotFree(k.serviceCategory) && DotFree(k.serviceWindow)
  }

  lemma {:induction false} SplitPart(a: string, rest: string)
    requires DotFree(a)
    ensures Split(a + ("." + rest)) == [a] + Split(rest)
  {
    var s := a + ("." + rest);
    if a == "" {
      assert s == "." + rest && s[1..] == rest;
    } else {
      SplitPart(a[1..], rest);
      assert a[0] in a && s[0] == a[0] && s[1..] == a[1..] + ("." + rest);
      assert [a[0]] + a[1..] == a;
    }
  }

  lemma {:induction false} SplitLast(a: string)
    requires DotFree(a)
    ensures Split(a) == [a]
  {
    if a != "" {
      SplitLast(a[1..]);
      assert a[0] in a && [a[0]] + a[1..] == a;
    }
  }

  lemma {:induction false} PartsDotFree(s: string)
    ensures forall p :: p in Split(s) ==> DotFree(p)
  {
    if s != "" {
      PartsDotFree(s[1..]);
      var rest := Split(s[1..]);
      assert rest[0] in rest;
      forall p | p in Split(s) ensures DotFree(p) {
        if p !in rest[1..] { assert p == "" || p == [s[0]] + rest[0] || p in rest; }
      }
    }
  }

  function Joined(parts: seq<string>): string
    requires parts != []
  {
    if |parts| == 1 then parts[0] else parts[0] + ("." + Joined(parts[1..]))
  }

  lemma {:induction false} SplitJoined(s: string)
    ensures Joined(Split(s)) == s
  {
    if s != "" {
      SplitJoined(s[1..]);
      var rest := Split(s[1..]);
      if s[0] == '.' {
        assert ([""] + rest)[1..] == rest && "" + ("." + s[1..]) == s;
      } else {
        var parts := [[s[0]] + rest[0]] + rest[1..];
        assert parts[1..] == rest[1..];
        if |rest| > 1 { assert [s[0]] + rest[0] + ("." + Joined(rest[1..])) == [s[0]] + Joined(rest); }
        assert [s[0]] + s[1..] == s;
      }
    }
  }

  lemma TextSplits(k: RateKey)
    requires Plain(k)
    ensures Split(Text(k)) == [k.serviceType, k.sourceType, DirectionText(k.serviceDirection), k.serviceCategory]
                              + (if k.serviceWindow == "" then [] else [k.serviceWindow])
  {
    hide Split;
    var direction, window := DirectionText(k.serviceDirection), k.serviceWindow;
    var end := if window == "" then k.serviceCategory else k.serviceCategory + ("." + window);
    SplitPart(k.serviceType, k.sourceType + ("." + (direction + ("." + end))));
    SplitPart(k.sourceType, direction + ("." + end));
    assert DotFree(direction);
    SplitPart(direction, end);
    if window == "" {
      SplitLast(k.serviceCategory);
    } else {
      SplitPart(k.serviceCategory, window);
      SplitLast(window);
    }
  }

  /** A key is read back from its text exactly when none of its fields holds a dot. */
  lemma KeyRoundTrip(k: RateKey)
    ensures ParseRateKey(Text(k)) == Some(k) <==> Plain(k)
  {
    if Plain(k) { TextSplits(k); }
    var parts := Split(Text(k));
    PartsDotFree(Text(k));
    if |parts| == 4 || |parts| == 5 {
      assert parts[0] in parts && parts[1] in parts && parts[3] in parts;
      if |parts| == 5 { assert parts[4] in parts; }
    }
  }

  /** And text that parses is the text of the key it gives, but for the dot of an empty window. */
  lemma TextRoundTrip(s: string)
    requires ParseRateKey(s).Some?
    ensures var t := Text(ParseRateKey(s).value); s == t || s == t + "."
  {
    hide Split;
    SplitJoined(s);
    var parts := Split(s);
    var direction := DirectionText(ParseCallDirection(parts[2]).value);
    assert direction == parts[2];
    JoinedFive(parts);
    if |parts| == 5 && parts[4] == "" { DotMoves(parts[0], parts[1], parts[2], parts[3]); }
  }

  lemma DotMoves(a: string, b: string, c: string, d: string)
    ensures a + ("." + (b + ("." + (c + ("." + (d + ("." + ""))))))) == (a + ("." + (b + ("." + (c + ("." + d))))))
            + "."
  {
    var s, t := a + ("." + (b + ("." + (c + ("." + (d + ("." + ""))))))), a + ("." + (b + ("." + (c + ("." + d)))));
    var u, v := b + ("." + (c + ("." + (d + ".")))), b + ("." + (c + ("." + d)));
    assert "." + "" == ".";
    assert c + ("." + (d + ".")) == (c + ("." + d)) + ".";
    assert u == v + ".";
    assert s == a + ("." + u) && t == a + ("." + v);
  }

  lemma JoinedFive(parts: seq<string>)
    requires |parts| == 4 || |parts| == 5
    ensures var end := if |parts| == 5 then parts[3] + ("." + parts[4]) else parts[3];
            Joined(parts) == parts[0] + ("." + (parts[1] + ("." + (parts[2] + ("." + end)))))
  {
    var tail := if |parts| == 5 then parts[4..] else [];
    assert parts[1..][1..] == parts[2..] && parts[2..][1..] == parts[3..] && parts[3..][1..] == tail;
    assert Joined(parts[3..]) == if |parts| == 5 then parts[3] + ("." + parts[4]) else parts[3];
    assert Joined(parts[2..]) == parts[2] + ("." + Joined(parts[3..]));
    assert Joined(parts[1..]) == parts[1] + ("." + Joined(parts[2..]));
  }
}
