/** Printing a Cookie header for the local target and parsing one from the public side (section 4.2.1 of RFC 6265). */
module CookieHeader {
  import opened Bytes
  import opened Messages
  import P = PercentEncoding
  import Text

  const MAX_PROTOCOL_STRING_LENGTH: nat := 8192

  predicate Bounded(s: string) {
    Text.Utf16Length(s) <= MAX_PROTOCOL_STRING_LENGTH
  }

  // Parsing

  /** The trimmed text around the first `=` of one part, unless nothing stands before it. */
  function RawPair(part: string): Option<(string, string)> {
    var trimmed := Text.Trim(part);
    var separator := Text.IndexOf(trimmed, '=');
    if separator == 0 || separator == |trimmed| then None
    else Some((Text.Trim(trimmed[..separator]), Text.Trim(trimmed[separator + 1..])))
  }

  function AddPart(part: string, cookies: Cookies): Result<Cookies> {
    var raw := RawPair(part);
    if raw.None? then Ok(cookies)
    else
      var name, value := P.DecodeUriComponent(raw.value.0), P.DecodeUriComponent(raw.value.1);
      if name.None? || value.None? then Err("Malformed Cookie header encoding.")
      else if !Bounded(name.value) then Err("cookie name exceeds maximum length of 8192 characters.")
      else if !Bounded(value.value) then Err("cookie value exceeds maximum length of 8192 characters.")
      else Ok(Assign(cookies, name.value, value.value))
  }

  function AddParts(parts: seq<string>, cookies: Cookies): Result<Cookies> {
    if parts == [] then Ok(cookies)
    else
      var added := AddPart(parts[0], cookies);
      if added.Err? then added else AddParts(parts[1..], added.value)
  }

  function Parsed(header: Option<string>): Result<Cookies> {
    if header.None? || Text.Trim(header.value) == "" then Ok(map[])
    else AddParts(Text.Split(header.value, ';'), map[])
  }

  lemma AddPartsStep(parts: seq<string>, i: nat, cookies: Cookies)
    requires i < |parts|
    ensures var added := AddPart(parts[i], cookies);
            AddParts(parts[i..], cookies) == if added.Err? then added else AddParts(parts[i + 1..], added.value)
  {
    assert parts[i..][1..] == parts[i + 1..];
  }

  method ParseCookieHeader(header: Option<string>) returns (r: Result<Cookies>)
    ensures r == Parsed(header)
  {
    if header.None? || |Text.Trim(header.value)| == 0 {
      return Ok(map[]);
    }
    var parts := Text.Split(header.value, ';');
    var result: Cookies := map[];
    ghost var expected := Parsed(header);
    for i := 0 to |parts|
      invariant expected == AddParts(parts[i..], result)
    {
      AddPartsStep(parts, i, result);
      var trimmed := Text.Trim(parts[i]);
      if |trimmed| == 0 {
        continue;
      }
      var separator := Text.IndexOf(trimmed, '=');
      if separator == 0 || separator == |trimmed| {
        continue;
      }
      var name := P.DecodeUriComponent(Text.Trim(trimmed[..separator]));
      var value := P.DecodeUriComponent(Text.Trim(trimmed[separator + 1..]));
      if name.None? || value.None? {
        return Err("Malformed Cookie header encoding.");
      }
      if !Bounded(name.value) {
        return Err("cookie name exceeds maximum length of 8192 characters.");
      }
      if !Bounded(value.value) {
        return Err("cookie value exceeds maximum length of 8192 characters.");
      }
      result := Assign(result, name.value, value.value);
    }
    r := Ok(result);
  }

  // Printing

  function Pair(name: string, value: string): string {
    P.EncodeUriComponent(name) + "=" + P.EncodeUriComponent(value)
  }

  function Pairs(order: seq<string>, cookies: Cookies): (pairs: seq<string>)
    requires forall name :: name in order ==> name in cookies
    ensures |pairs| == |order|
  {
    seq(|order|, i requires 0 <= i < |order| => Pair(order[i], cookies[order[i]]))
  }

  function SerializeCookies(cookies: Cookies, order: seq<string>): Option<string>
    requires Enumerates(order, cookies)
  {
    if order == [] then None else Some(Text.Join(Pairs(order, cookies), "; "))
  }

  // Parsing what was printed

  /** What lies between the semicolons of pairs joined by `"; "`. */
  function Pieces(lead: string, pairs: seq<string>): seq<string>
    decreases |pairs|
  {
    if pairs == [] then [] else [lead + pairs[0]] + Pieces(" ", pairs[1..])
  }

  lemma FirstSemicolon(a: string, b: string)
    requires ';' !in a
    ensures Text.IndexOf(a, ';') == |a|
    ensures Text.IndexOf(a + ";" + b, ';') == |a|
  {
    assert (a + ";" + b)[|a|] == ';';
    assert forall k :: 0 <= k < |a| ==> (a + ";" + b)[k] == a[k];
  }

  lemma {:induction false} SplitOfJoin(lead: string, pairs: seq<string>)
    requires pairs != [] && ';' !in lead && forall i :: 0 <= i < |pairs| ==> ';' !in pairs[i]
    ensures Text.Split(lead + Text.Join(pairs, "; "), ';') == Pieces(lead, pairs)
    decreases |pairs|
  {
    var head := lead + pairs[0];
    if |pairs| == 1 {
      FirstSemicolon(head, "");
    } else {
      var tail := " " + Text.Join(pairs[1..], "; ");
      assert lead + Text.Join(pairs, "; ") == head + ";" + tail;
      FirstSemicolon(head, tail);
      assert (head + ";" + tail)[..|head|] == head && (head + ";" + tail)[|head| + 1..] == tail;
      SplitOfJoin(" ", pairs[1..]);
    }
  }

  lemma CleanCharacter(c: char)
    requires P.Clean(c)
    ensures c != ';' && c != '=' && !Text.IsSpace(c)
  {
  }

  lemma CleanCharacters(s: string)
    ensures var e := P.EncodeUriComponent(s); ';' !in e && '=' !in e && forall c :: c in e ==> !Text.IsSpace(c)
    ensures P.EncodeUriComponent(s) == [] <==> s == []
  {
    P.EncodedClean(s);
    forall c | c in P.EncodeUriComponent(s)
      ensures c != ';' && c != '=' && !Text.IsSpace(c)
    {
      CleanCharacter(c);
    }
  }

  lemma PairClean(name: string, value: string)
    ensures var p := Pair(name, value); ';' !in p && p != "" && forall c :: c in p ==> !Text.IsSpace(c)
  {
    CleanCharacters(name);
    CleanCharacters(value);
  }

  lemma TrimLed(lead: string, s: string)
    requires lead == "" || lead == " "
    requires s != "" && forall c :: c in s ==> !Text.IsSpace(c)
    ensures Text.Trim(lead + s) == s
  {
    Text.TrimNoSpace(s);
    if lead == " " {
      assert (lead + s)[1..] == s;
    } else {
      assert lead + s == s;
    }
  }

  lemma SeparatorOfPair(name: string, value: string)
    ensures var n, p := P.EncodeUriComponent(name), Pair(name, value);
            && Text.IndexOf(p, '=') == |n| < |p|
            && p[..|n|] == n && p[|n| + 1..] == P.EncodeUriComponent(value)
  {
    var n, p := P.EncodeUriComponent(name), Pair(name, value);
    CleanCharacters(name);
    assert p[|n|] == '=';
    assert forall k :: 0 <= k < |n| ==> p[k] == n[k];
  }

  lemma TrimEncoded(s: string)
    ensures Text.Trim(P.EncodeUriComponent(s)) == P.EncodeUriComponent(s)
    ensures |P.EncodeUriComponent(s)| == 0 <==> s == ""
  {
    CleanCharacters(s);
    Text.TrimNoSpace(P.EncodeUriComponent(s));
  }

  lemma RawPairOfPair(lead: string, name: string, value: string)
    requires lead == "" || lead == " "
    ensures RawPair(lead + Pair(name, value)) ==
            if name == "" then None else Some((P.EncodeUriComponent(name), P.EncodeUriComponent(value)))
  {
    PairClean(name, value);
    TrimLed(lead, Pair(name, value));
    SeparatorOfPair(name, value);
    TrimEncoded(name);
    TrimEncoded(value);
  }

  predicate TooLong(name: string, value: string) {
    name != "" && (!Bounded(name) || !Bounded(value))
  }

  /** A printed cookie is read back as itself, is refused for its length, or, without a usable name, is passed over. */
  lemma AddPrinted(lead: string, name: string, value: string, cookies: Cookies)
    requires lead == "" || lead == " "
    ensures var r := AddPart(lead + Pair(name, value), cookies);
            && (r.Err? <==> TooLong(name, value))
            && (r.Ok? ==> r.value == if name == "" then cookies else Assign(cookies, name, value))
  {
    RawPairOfPair(lead, name, value);
    P.RoundTrip(name);
    P.RoundTrip(value);
  }

  /** The cookies a header can carry back: those with a name that is a property name. */
  function Readable(order: seq<string>, cookies: Cookies): Cookies
    requires forall name :: name in order ==> name in cookies
  {
    map name | name in order && name != "" && name != PROTOTYPE_KEY :: cookies[name]
  }

  ghost predicate AllShort(order: seq<string>, cookies: Cookies)
    requires forall name :: name in order ==> name in cookies
  {
    forall i :: 0 <= i < |order| ==> !TooLong(order[i], cookies[order[i]])
  }

  lemma ReadableStep(order: seq<string>, cookies: Cookies, before: Cookies)
    requires order != [] && forall name :: name in order ==> name in cookies
    ensures var first := if order[0] == "" then before else Assign(before, order[0], cookies[order[0]]);
            first + Readable(order[1..], cookies) == before + Readable(order, cookies)
  {
    assert forall name :: name in order <==> name == order[0] || name in order[1..];
  }

  lemma AllShortStep(order: seq<string>, cookies: Cookies)
    requires order != [] && forall name :: name in order ==> name in cookies
    ensures AllShort(order, cookies) <==> !TooLong(order[0], cookies[order[0]]) && AllShort(order[1..], cookies)
  {
    if !TooLong(order[0], cookies[order[0]]) && AllShort(order[1..], cookies) {
      forall i | 0 <= i < |order|
        ensures !TooLong(order[i], cookies[order[i]])
      {
        assert i > 0 ==> order[1..][i - 1] == order[i];
      }
    }
  }

  lemma {:induction false} AddAllPrinted(lead: string, order: seq<string>, cookies: Cookies, before: Cookies)
    requires lead == "" || lead == " "
    requires forall name :: name in order ==> name in cookies
    ensures var r := AddParts(Pieces(lead, Pairs(order, cookies)), before);
            && (r.Ok? <==> AllShort(order, cookies))
            && (r.Ok? ==> r.value == before + Readable(order, cookies))
    decreases |order|
  {
    if order == [] {
      assert Readable(order, cookies) == map[];
    } else {
      var name, value := order[0], cookies[order[0]];
      assert Pairs(order, cookies)[1..] == Pairs(order[1..], cookies);
      AddPrinted(lead, name, value, before);
      AllShortStep(order, cookies);
      if !TooLong(name, value) {
        AddAllPrinted(" ", order[1..], cookies, if name == "" then before else Assign(before, name, value));
        ReadableStep(order, cookies, before);
      }
    }
  }

  lemma PairsClean(order: seq<string>, cookies: Cookies)
    requires forall name :: name in order ==> name in cookies
    ensures forall i :: 0 <= i < |order| ==> ';' !in Pairs(order, cookies)[i]
  {
    forall i | 0 <= i < |order|
      ensures ';' !in Pairs(order, cookies)[i]
    {
      PairClean(order[i], cookies[order[i]]);
    }
  }

  lemma JoinVisible(order: seq<string>, cookies: Cookies)
    requires order != [] && forall name :: name in order ==> name in cookies
    ensures var joined := Text.Join(Pairs(order, cookies), "; "); joined != "" && !Text.IsSpace(joined[0])
  {
    PairClean(order[0], cookies[order[0]]);
    var p, joined := Pair(order[0], cookies[order[0]]), Text.Join(Pairs(order, cookies), "; ");
    assert joined[0] == p[0];
  }

  lemma ShortInAnyOrder(cookies: Cookies, order: seq<string>)
    requires Enumerates(order, cookies)
    ensures AllShort(order, cookies) <==> forall name :: name in cookies ==> !TooLong(name, cookies[name])
  {
    if AllShort(order, cookies) {
      forall name | name in cookies
        ensures !TooLong(name, cookies[name])
      {
        var i :| 0 <= i < |order| && order[i] == name;
      }
    }
  }

  lemma {:induction false} TrimEndKeepsFirst(s: string)
    requires s != "" && !Text.IsSpace(s[0])
    ensures Text.TrimEnd(s) != "" && Text.TrimEnd(s)[0] == s[0]
  {
    if Text.IsSpace(s[|s| - 1]) {
      TrimEndKeepsFirst(s[..|s| - 1]);
    }
  }

  lemma TrimKeepsFirst(s: string)
    requires s != "" && !Text.IsSpace(s[0])
    ensures Text.Trim(s) != ""
  {
    assert Text.TrimStart(s) == s;
    TrimEndKeepsFirst(s);
  }

  lemma ParsedPairs(cookies: Cookies, order: seq<string>)
    requires Enumerates(order, cookies)
    ensures Parsed(SerializeCookies(cookies, order)) == AddParts(Pieces("", Pairs(order, cookies)), map[])
  {
    if order != [] {
      PairsClean(order, cookies);
      JoinVisible(order, cookies);
      TrimKeepsFirst(Text.Join(Pairs(order, cookies), "; "));
      SplitOfJoin("", Pairs(order, cookies));
      assert "" + Text.Join(Pairs(order, cookies), "; ") == Text.Join(Pairs(order, cookies), "; ");
    }
  }

  /** For every cookie map, in whatever order its properties come, exactly what parsing its printed header gives. */
  lemma ParsedSerialized(cookies: Cookies, order: seq<string>)
    requires Enumerates(order, cookies)
    ensures var r := Parsed(SerializeCookies(cookies, order));
            && (r.Ok? <==> forall name :: name in cookies ==> !TooLong(name, cookies[name]))
            && (r.Ok? ==> r.value == cookies - {"", PROTOTYPE_KEY})
  {
    assert Readable(order, cookies) == cookies - {"", PROTOTYPE_KEY};
    ShortInAnyOrder(cookies, order);
    ParsedPairs(cookies, order);
    AddAllPrinted("", order, cookies, map[]);
  }

  /** Printer and parser undo each other exactly on the maps whose names are usable and whose texts are short enough. */
  lemma RoundTrip(cookies: Cookies, order: seq<string>)
    requires Enumerates(order, cookies)
    ensures Parsed(SerializeCookies(cookies, order)) == Ok(cookies)
            <==> forall name :: name in cookies ==>
                   name != "" && name != PROTOTYPE_KEY && Bounded(name) && Bounded(cookies[name])
  {
    ParsedSerialized(cookies, order);
    var r := Parsed(SerializeCookies(cookies, order));
    assert cookies - {"", PROTOTYPE_KEY} == cookies <==> "" !in cookies && PROTOTYPE_KEY !in cookies;
  }

  // Printing what was parsed

  /** What every parsed cookie map is like. */
  ghost predicate Usable(cookies: Cookies) {
    forall name :: name in cookies ==> name != "" && name != PROTOTYPE_KEY && Bounded(name) && Bounded(cookies[name])
  }

  lemma {:induction false} TrimStartFirst(s: string)
    ensures Text.TrimStart(s) != "" ==> !Text.IsSpace(Text.TrimStart(s)[0])
  {
    if s != [] && Text.IsSpace(s[0]) {
      TrimStartFirst(s[1..]);
    }
  }

  lemma TrimFirst(s: string)
    ensures Text.Trim(s) != "" ==> !Text.IsSpace(Text.Trim(s)[0])
  {
    TrimStartFirst(s);
    if Text.TrimStart(s) != "" {
      TrimEndKeepsFirst(Text.TrimStart(s));
    }
  }

  lemma RawNameNotEmpty(part: string)
    ensures RawPair(part).Some? ==> RawPair(part).value.0 != ""
  {
    TrimFirst(part);
    var trimmed := Text.Trim(part);
    var separator := Text.IndexOf(trimmed, '=');
    if 0 < separator < |trimmed| {
      assert trimmed[..separator][0] == trimmed[0];
      TrimKeepsFirst(trimmed[..separator]);
    }
  }

  lemma DecodedNotEmpty(s: string)
    requires s != "" && P.DecodeUriComponent(s).Some?
    ensures P.DecodeUriComponent(s).value != ""
  {
  }

  lemma AddPartUsable(part: string, cookies: Cookies)
    requires Usable(cookies) && AddPart(part, cookies).Ok?
    ensures Usable(AddPart(part, cookies).value)
  {
    RawNameNotEmpty(part);
    var raw := RawPair(part);
    if raw.Some? {
      DecodedNotEmpty(raw.value.0);
    }
  }

  lemma {:induction false} AddPartsUsable(parts: seq<string>, cookies: Cookies)
    requires Usable(cookies) && AddParts(parts, cookies).Ok?
    ensures Usable(AddParts(parts, cookies).value)
  {
    if parts != [] {
      AddPartUsable(parts[0], cookies);
      AddPartsUsable(parts[1..], AddPart(parts[0], cookies).value);
    }
  }

  /** Whatever public Cookie header was accepted, the header printed for the local target parses to the same cookies. */
  lemma ParsedSurvives(header: Option<string>, order: seq<string>)
    requires Parsed(header).Ok? && Enumerates(order, Parsed(header).value)
    ensures Parsed(SerializeCookies(Parsed(header).value, order)) == Parsed(header)
  {
    if header.Some? && Text.Trim(header.value) != "" {
      AddPartsUsable(Text.Split(header.value, ';'), map[]);
    }
    RoundTrip(Parsed(header).value, order);
  }
}
