/** Parsing and printing `--server` addresses (src/server_address.rs). */
module ServerAddresses {
  import opened Common
  import opened Text

  const DEFAULT_PORT: nat := 41807
  const U16_MAX: nat := 65535

  datatype Scheme = Ws | Wss

  datatype ServerAddress = ServerAddress(scheme: Scheme, host: string, port: nat)

  datatype Error =
    | MissingScheme
    | UnsupportedScheme(scheme: string)
    | EmptyHost
    | UnbracketedIpv6(authority: string)
    | UnterminatedIpv6Bracket
    | InvalidPort(port: string)
    | TrailingContent(content: string)

  function ParsePort(s: string): Result<nat, Error> {
    match ParseUint(s, U16_MAX)
    case Some(port) => Ok(port)
    case None => Err(InvalidPort(s))
  }

  function ParseBracketed(after: string): Result<(string, nat), Error> {
    match SplitOnce(after, "]")
    case None => Err(UnterminatedIpv6Bracket)
    case Some((host, rest)) =>
      if host == [] then Err(EmptyHost)
      else if rest == [] then Ok((host, DEFAULT_PORT))
      else if rest[0] != ':' then Err(TrailingContent(rest))
      else match ParsePort(rest[1..])
        case Ok(port) => Ok((host, port))
        case Err(e) => Err(e)
  }

  function ParsePlain(authority: string): Result<(string, nat), Error> {
    if Occurrences(authority, ':') == 0 then Ok((authority, DEFAULT_PORT))
    else if Occurrences(authority, ':') > 1 then Err(UnbracketedIpv6(authority))
    else match SplitOnce(authority, ":")
      case None => Err(EmptyHost)
      case Some((host, port)) =>
        if host == [] then Err(EmptyHost)
        else match ParsePort(port)
          case Ok(p) => Ok((host, p))
          case Err(e) => Err(e)
  }

  function ParseAuthority(scheme: Scheme, authority: string): Result<ServerAddress, Error> {
    if authority == [] then Err(EmptyHost)
    else
      var parts := if authority[0] == '[' then ParseBracketed(authority[1..]) else ParsePlain(authority);
      match parts
      case Ok((host, port)) => Ok(ServerAddress(scheme, host, port))
      case Err(e) => Err(e)
  }

  function Parse(input: string): Result<ServerAddress, Error> {
    match SplitOnce(input, "://")
    case None => Err(MissingScheme)
    case Some((scheme, authority)) =>
      if scheme == "ws" then ParseAuthority(Ws, authority)
      else if scheme == "wss" then ParseAuthority(Wss, authority)
      else Err(UnsupportedScheme(scheme))
  }

  function SchemeName(scheme: Scheme): string {
    match scheme
    case Ws => "ws"
    case Wss => "wss"
  }

  function CanonicalAuthority(a: ServerAddress): string {
    if ':' in a.host then "[" + a.host + "]" + ":" + Decimal(a.port)
    else a.host + ":" + Decimal(a.port)
  }

  function ToCanonicalUrl(a: ServerAddress): string {
    SchemeName(a.scheme) + "://" + CanonicalAuthority(a)
  }

  // ---------------------------------------------------------------------
  // What parsing accepts
  // ---------------------------------------------------------------------

  /** How the port may be written: left out for the default, or after a colon. */
  ghost predicate SpellsPort(s: string, port: nat) {
    || (s == [] && port == 41807)
    || (s != [] && s[0] == ':' && ParseUint(s[1..], 65535) == Some(port))
  }

  /** The accepted spellings of an address: a bracketed literal, or a plain host
      without colons that does not open a bracket. */
  ghost predicate Spells(s: string, a: ServerAddress) {
    exists rest: string ::
      && SpellsPort(rest, a.port) && a.host != []
      && ((s == SchemeName(a.scheme) + "://" + ("[" + a.host + "]" + rest) && ']' !in a.host)
          || (s == SchemeName(a.scheme) + "://" + (a.host + rest) && ':' !in a.host && a.host[0] != '['))
  }

  lemma SchemeSplits(scheme: Scheme, authority: string)
    ensures SplitOnce(SchemeName(scheme) + "://" + authority, "://") == Some((SchemeName(scheme), authority))
  {
    var name := SchemeName(scheme);
    var s := name + "://" + authority;
    assert s[|name|] == ':';
    forall i: nat | i < |name| ensures !OccursAt(s, "://", i) {
      assert s[i] == name[i] && i + 3 <= |s| && s[i..i + 3][0] == s[i];
    }
    assert s[|name|..|name| + 3] == "://";
    FindUnique(s, "://", |name|);
    assert s[..|name|] == name && s[|name| + 3..] == authority;
  }

  lemma ParseIsAuthority(scheme: Scheme, authority: string)
    ensures Parse(SchemeName(scheme) + "://" + authority) == ParseAuthority(scheme, authority)
  {
    SchemeSplits(scheme, authority);
    assert |"ws"| == 2 && |"wss"| == 3;
  }

  lemma BracketedSpelling(host: string, rest: string, port: nat)
    requires host != [] && ']' !in host && SpellsPort(rest, port)
    ensures ParseBracketed(host + "]" + rest) == Ok((host, port))
  {
    SplitOnceChar(host, ']', rest);
  }

  lemma {:induction false} DigitsOnly(s: string)
    requires DigitsValue(s).Some?
    ensures forall i :: 0 <= i < |s| ==> IsDigit(s[i])
  {
    if s != [] {
      DigitsOnly(Front(s));
      assert s == Front(s) + [Last(s)];
    }
  }

  lemma NumberHasNoColon(s: string, port: nat)
    requires ParseUint(s, U16_MAX) == Some(port)
    ensures ':' !in s
  {
    var digits := if s != [] && s[0] == '+' then s[1..] else s;
    DigitsOnly(digits);
    assert s == digits || s == "+" + digits;
  }

  lemma PlainSpelling(host: string, rest: string, port: nat)
    requires host != [] && ':' !in host && SpellsPort(rest, port)
    ensures ParsePlain(host + rest) == Ok((host, port))
  {
    NoOccurrence(host, ':');
    OccurrencesConcat(host, rest, ':');
    if rest == [] {
      assert host + rest == host;
    } else {
      assert rest == ":" + rest[1..];
      assert host + rest == host + ":" + rest[1..];
      SplitOnceChar(host, ':', rest[1..]);
      NumberHasNoColon(rest[1..], port);
      NoOccurrence(rest[1..], ':');
    }
  }

  lemma BracketedParts(after: string)
    ensures ParseBracketed(after).Ok? ==>
              var (host, port) := ParseBracketed(after).value;
              host != [] && ']' !in host && exists rest: string :: after == host + "]" + rest && SpellsPort(rest, port)
  {
    SplitOnceCharBefore(after, ']');
    if ParseBracketed(after).Ok? {
      var (host, rest) := SplitOnce(after, "]").value;
      assert after == host + "]" + rest;
      assert SpellsPort(rest, ParseBracketed(after).value.1);
    }
  }

  lemma WholeIsHost(authority: string)
    requires authority != [] && Occurrences(authority, ':') == 0
    ensures ':' !in authority && authority == authority + [] && SpellsPort([], DEFAULT_PORT)
  {
    NoOccurrence(authority, ':');
  }

  lemma PlainParts(authority: string)
    requires authority != []
    ensures ParsePlain(authority).Ok? ==>
              var (host, port) := ParsePlain(authority).value;
              host != [] && ':' !in host && exists rest: string :: authority == host + rest && SpellsPort(rest, port)
  {
    if ParsePlain(authority).Ok? {
      var (host, port) := ParsePlain(authority).value;
      if Occurrences(authority, ':') == 0 {
        WholeIsHost(authority);
      } else {
        SplitOnceCharBefore(authority, ':');
        var (_, text) := SplitOnce(authority, ":").value;
        ConcatAssociates(host, ":", text);
        assert (":" + text)[1..] == text && SpellsPort(":" + text, port);
      }
    }
  }

  lemma BracketedIsSpelled(a: ServerAddress, rest: string)
    requires SpellsPort(rest, a.port) && a.host != [] && ']' !in a.host
    ensures Spells(SchemeName(a.scheme) + "://" + ("[" + a.host + "]" + rest), a)
  {
  }

  lemma PlainIsSpelled(a: ServerAddress, rest: string)
    requires SpellsPort(rest, a.port) && a.host != [] && ':' !in a.host && a.host[0] != '['
    ensures Spells(SchemeName(a.scheme) + "://" + (a.host + rest), a)
  {
  }

  lemma Rebracket(host: string, rest: string)
    ensures "[" + (host + "]" + rest) == "[" + host + "]" + rest
  {
  }

  lemma AuthorityIsSpelled(scheme: Scheme, authority: string, a: ServerAddress)
    requires ParseAuthority(scheme, authority) == Ok(a)
    ensures Spells(SchemeName(scheme) + "://" + authority, a)
  {
    if authority[0] == '[' {
      BracketedParts(authority[1..]);
      var rest: string :| authority[1..] == a.host + "]" + rest && SpellsPort(rest, a.port);
      assert authority == "[" + authority[1..];
      Rebracket(a.host, rest);
      BracketedIsSpelled(a, rest);
    } else {
      PlainParts(authority);
      var rest: string :| authority == a.host + rest && SpellsPort(rest, a.port);
      PlainIsSpelled(a, rest);
    }
  }

  lemma ParsedIsSpelled(s: string, a: ServerAddress)
    requires Parse(s) == Ok(a)
    ensures Spells(s, a)
  {
    var (name, authority) := SplitOnce(s, "://").value;
    AuthorityIsSpelled(a.scheme, authority, a);
  }

  lemma BracketedIsParsed(a: ServerAddress, rest: string)
    requires SpellsPort(rest, a.port) && a.host != [] && ']' !in a.host
    ensures Parse(SchemeName(a.scheme) + "://" + ("[" + a.host + "]" + rest)) == Ok(a)
  {
    var inside := a.host + "]" + rest;
    Rebracket(a.host, rest);
    BracketedSpelling(a.host, rest, a.port);
    ParseIsAuthority(a.scheme, "[" + inside);
    assert ("[" + inside)[0] == '[' && ("[" + inside)[1..] == inside;
  }

  lemma PlainIsParsed(a: ServerAddress, rest: string)
    requires SpellsPort(rest, a.port) && a.host != [] && ':' !in a.host && a.host[0] != '['
    ensures Parse(SchemeName(a.scheme) + "://" + (a.host + rest)) == Ok(a)
  {
    ParseIsAuthority(a.scheme, a.host + rest);
    assert (a.host + rest)[0] == a.host[0];
    PlainSpelling(a.host, rest, a.port);
  }

  lemma SpelledIsParsed(s: string, a: ServerAddress)
    requires Spells(s, a)
    ensures Parse(s) == Ok(a)
  {
    var rest: string :|
      && SpellsPort(rest, a.port) && a.host != []
      && ((s == SchemeName(a.scheme) + "://" + ("[" + a.host + "]" + rest) && ']' !in a.host)
          || (s == SchemeName(a.scheme) + "://" + (a.host + rest) && ':' !in a.host && a.host[0] != '['));
    if ']' !in a.host {
      BracketedIsParsed(a, rest);
    }
    if ':' !in a.host && a.host[0] != '[' {
      PlainIsParsed(a, rest);
    }
  }

  /** Parsing accepts exactly the listed spellings, and reads each as the
      address it spells. */
  lemma ParseIffSpells(s: string, a: ServerAddress)
    ensures Parse(s) == Ok(a) <==> Spells(s, a)
  {
    if Parse(s) == Ok(a) {
      ParsedIsSpelled(s, a);
    }
    if Spells(s, a) {
      SpelledIsParsed(s, a);
    }
  }

  /** Printed with its port spelt out, an address that needs no care parses back. */
  lemma CanonicalParses(a: ServerAddress)
    requires a.port <= U16_MAX && a.host != []
    requires if ':' in a.host then ']' !in a.host else a.host[0] != '['
    ensures Parse(ToCanonicalUrl(a)) == Ok(a)
  {
    ParseDecimal(a.port, U16_MAX);
    var rest := ":" + Decimal(a.port);
    assert rest[1..] == Decimal(a.port) && SpellsPort(rest, a.port);
    if ':' in a.host {
      assert CanonicalAuthority(a) == "[" + a.host + "]" + rest;
      BracketedIsParsed(a, rest);
    } else {
      assert CanonicalAuthority(a) == a.host + rest;
      PlainIsParsed(a, rest);
    }
  }

  lemma PortFits(s: string, a: ServerAddress)
    requires Spells(s, a)
    ensures a.port <= U16_MAX && a.host != [] && (':' in a.host ==> ']' !in a.host)
  {
  }

  /** Printed without brackets, such a host would be read as a literal that
      starts after its first character, and so is shorter. */
  lemma DoubleBracketFails(a: ServerAddress, rest: string)
    requires a.host != [] && a.host[0] == '[' && ':' !in a.host
    requires rest == ":" + Decimal(a.port)
    ensures Parse(ToCanonicalUrl(a)) != Ok(a)
  {
    hide Parse, ParseBracketed, ParsePlain, SpellsPort, Decimal;
    var authority := CanonicalAuthority(a);
    assert authority == a.host + rest;
    ParseIsAuthority(a.scheme, authority);
    var after := authority[1..];
    assert after == a.host[1..] + rest;
    if ParseBracketed(after).Ok? {
      BracketedParts(after);
      var (host, port) := ParseBracketed(after).value;
      var tail: string :| after == host + "]" + tail && SpellsPort(tail, port);
      assert after[|a.host| - 1] == ':';
      assert |host| == |a.host| ==> host[|a.host| - 1] == ':';
    }
  }

  /** A parsed address prints to a string that parses back to it, for every
      input except the bracketed hosts that open a second bracket and hold no
      colon: those print without brackets and no longer parse as themselves. */
  lemma CanonicalRoundTripsIff(s: string, a: ServerAddress)
    requires Parse(s) == Ok(a)
    ensures a.host != [] && (Parse(ToCanonicalUrl(a)) == Ok(a) <==> (':' in a.host || a.host[0] != '['))
  {
    ParsedIsSpelled(s, a);
    PortFits(s, a);
    if ':' in a.host || a.host[0] != '[' {
      CanonicalParses(a);
    } else {
      DoubleBracketFails(a, ":" + Decimal(a.port));
    }
  }

  lemma NeverClosed(after: string)
    requires ']' !in after
    ensures ParseBracketed(after) == Err(UnterminatedIpv6Bracket)
  {
    FindNoChar(after, ']');
  }

  lemma NoClosingBracket(host: string, port: nat)
    requires host != [] && ']' !in host
    ensures ']' !in (host + ":" + Decimal(port))[1..]
  {
    hide Decimal;
    DecimalHasOnlyDigits(port, ']');
  }

  /** Nor does it parse as anything else, when it came from parsing: the bracket
      such a host opens is never closed. */
  lemma DoubleBracketIsUnterminated(a: ServerAddress)
    requires a.host != [] && a.host[0] == '[' && ']' !in a.host && ':' !in a.host
    ensures Parse(ToCanonicalUrl(a)) == Err(UnterminatedIpv6Bracket)
  {
    hide Parse, ParseBracketed, Decimal;
    var authority := CanonicalAuthority(a);
    ParseIsAuthority(a.scheme, authority);
    NoClosingBracket(a.host, a.port);
    NeverClosed(authority[1..]);
  }

  /** Canonicalising twice is canonicalising once, for exactly the addresses that
      round-trip; the others do not canonicalise a second time at all. */
  lemma CanonicalIsIdempotentIff(s: string, a: ServerAddress)
    requires Parse(s) == Ok(a)
    ensures a.host != []
    ensures Parse(ToCanonicalUrl(a)).Ok? && ToCanonicalUrl(Parse(ToCanonicalUrl(a)).value) == ToCanonicalUrl(a)
            <==> (':' in a.host || a.host[0] != '[')
  {
    CanonicalRoundTripsIff(s, a);
    if ':' !in a.host && a.host[0] == '[' {
      ParsedIsSpelled(s, a);
      DoubleBracketIsUnterminated(a);
    }
  }

  // ---------------------------------------------------------------------
  // What parsing refuses, and why
  // ---------------------------------------------------------------------

  /** A colon is followed, somewhere, by another. */
  ghost predicate TwoColons(s: string) {
    exists i, j :: 0 <= i < j < |s| && s[i] == ':' && s[j] == ':'
  }

  /** `authority` brackets a host and goes on with `rest`. */
  ghost predicate Brackets(authority: string, rest: string) {
    exists host: string :: host != [] && ']' !in host && authority == "[" + (host + "]" + rest)
  }

  /** `authority` is a plain host, a colon, and `port`. */
  ghost predicate PutsPort(authority: string, port: string) {
    exists host: string ::
      host != [] && host[0] != '[' && ':' !in host && ':' !in port && authority == host + ":" + port
  }

  /** What is wrong with an authority. */
  ghost predicate Faulty(authority: string, e: Error) {
    match e
    case EmptyHost => authority == [] || "[]" <= authority || (authority[0] == ':' && ':' !in authority[1..])
    case UnterminatedIpv6Bracket => authority != [] && authority[0] == '[' && ']' !in authority
    case UnbracketedIpv6(text) => text == authority && authority != [] && authority[0] != '[' && TwoColons(authority)
    case TrailingContent(rest) => rest != [] && rest[0] != ':' && Brackets(authority, rest)
    case InvalidPort(port) =>
      ParseUint(port, 65535).None? && (Brackets(authority, ":" + port) || PutsPort(authority, port))
    case _ => false
  }

  lemma ColonsAround(before: string, after: string)
    ensures TwoColons(before + ":" + after) ==> ':' in before || ':' in after
  {
    var s := before + ":" + after;
    if TwoColons(s) {
      var i, j :| 0 <= i < j < |s| && s[i] == ':' && s[j] == ':';
      if j > |before| {
        assert after[j - |before| - 1] == s[j];
      } else {
        assert before[i] == s[i];
      }
    }
  }

  lemma TwoColonsCount(s: string)
    ensures TwoColons(s) <==> Occurrences(s, ':') > 1
  {
    FindNoChar(s, ':');
    NoOccurrence(s, ':');
    if SplitOnce(s, ":").Some? {
      var (before, after) := SplitOnce(s, ":").value;
      SplitOnceCharBefore(s, ':');
      OccurrencesConcat(before, ":", ':');
      OccurrencesConcat(before + ":", after, ':');
      NoOccurrence(before, ':');
      NoOccurrence(after, ':');
      assert s[|before|] == ':';
      if ':' in after {
        var k :| 0 <= k < |after| && after[k] == ':';
        assert s[|before| + 1 + k] == ':';
      }
      ColonsAround(before, after);
    }
  }

  /** The first closing bracket ends the host, so the rest is determined. */
  lemma BracketsOnce(host: string, rest: string)
    requires ']' !in host
    ensures forall tail: string :: Brackets("[" + (host + "]" + rest), tail) <==> host != [] && tail == rest
  {
    var inside := host + "]" + rest;
    SplitOnceChar(host, ']', rest);
    forall tail: string | Brackets("[" + inside, tail) ensures host != [] && tail == rest {
      var other: string :| other != [] && ']' !in other && "[" + inside == "[" + (other + "]" + tail);
      assert ("[" + inside)[1..] == inside && ("[" + (other + "]" + tail))[1..] == other + "]" + tail;
      SplitOnceChar(other, ']', tail);
    }
  }

  lemma BracketsClose(after: string)
    ensures forall rest: string :: Brackets("[" + after, rest) ==> ']' in after
    ensures "[]" <= "[" + after <==> after != [] && after[0] == ']'
  {
    forall rest: string | Brackets("[" + after, rest) ensures ']' in after {
      var host: string :| host != [] && ']' !in host && "[" + after == "[" + (host + "]" + rest);
      assert ("[" + after)[1..] == after && ("[" + (host + "]" + rest))[1..] == host + "]" + rest;
      assert (host + "]" + rest)[|host|] == ']';
    }
    var whole := "[" + after;
    assert "[]" == ['[', ']'];
    if |whole| > 1 {
      assert whole[..2] == [whole[0], whole[1]] && whole[1] == after[0];
    }
  }

  lemma PlainOpensNoBracket(authority: string)
    ensures forall port: string :: PutsPort(authority, port) ==> authority != [] && authority[0] != '['
    ensures forall rest: string :: Brackets(authority, rest) ==> authority != [] && authority[0] == '['
  {
  }

  lemma ColonPrefixes(rest: string)
    ensures forall port: string :: rest == ":" + port <==> rest != [] && rest[0] == ':' && port == rest[1..]
  {
  }

  lemma BracketedFails(after: string, e: Error)
    ensures ParseBracketed(after) == Err(e) <==> Faulty("[" + after, e)
  {
    hide ParseUint, Brackets, PutsPort, TwoColons;
    var authority := "[" + after;
    assert authority != [] && authority[0] == '[';
    FindNoChar(after, ']');
    assert ']' in authority <==> ']' in after;
    BracketsClose(after);
    PlainOpensNoBracket(authority);
    if SplitOnce(after, "]").Some? {
      var (host, rest) := SplitOnce(after, "]").value;
      SplitOnceCharBefore(after, ']');
      assert after == host + "]" + rest;
      BracketsOnce(host, rest);
      assert after[0] == if host == [] then ']' else host[0];
      ColonPrefixes(rest);
    }
  }

  /** Around its only colon an authority splits in one way. */
  lemma PutsPortOnce(host: string, port: string)
    requires ':' !in host && ':' !in port && (host == [] || host[0] != '[')
    ensures forall text: string :: PutsPort(host + ":" + port, text) <==> host != [] && text == port
  {
    SplitOnceChar(host, ':', port);
    forall text: string | PutsPort(host + ":" + port, text) ensures host != [] && text == port {
      var other: string :| other != [] && other[0] != '[' && ':' !in other && ':' !in text
                           && host + ":" + port == other + ":" + text;
      SplitOnceChar(other, ':', text);
    }
  }

  lemma PutsPortOneColon(authority: string)
    ensures forall text: string :: PutsPort(authority, text) ==> Occurrences(authority, ':') == 1
  {
    forall text: string | PutsPort(authority, text) ensures Occurrences(authority, ':') == 1 {
      var host: string :| host != [] && host[0] != '[' && ':' !in host && ':' !in text
                          && authority == host + ":" + text;
      NoOccurrence(host, ':');
      NoOccurrence(text, ':');
      OccurrencesConcat(host, ":", ':');
      OccurrencesConcat(host + ":", text, ':');
    }
  }

  lemma PlainFails(authority: string, e: Error)
    requires authority != [] && authority[0] != '['
    ensures ParsePlain(authority) == Err(e) <==> Faulty(authority, e)
  {
    hide ParseUint;
    hide Brackets, PutsPort, TwoColons;
    PlainOpensNoBracket(authority);
    PutsPortOneColon(authority);
    TwoColonsCount(authority);
    NoOccurrence(authority, ':');
    FindNoChar(authority, ':');
    if Occurrences(authority, ':') == 1 {
      var (host, port) := SplitOnce(authority, ":").value;
      SplitOnceCharBefore(authority, ':');
      NoOccurrence(host, ':');
      NoOccurrence(port, ':');
      OccurrencesConcat(host, ":", ':');
      OccurrencesConcat(host + ":", port, ':');
      assert authority == host + ":" + port;
      assert host != [] ==> authority[0] == host[0];
      PutsPortOnce(host, port);
      assert host == [] ==> authority[1..] == port;
    } else if authority[0] == ':' {
      NoOccurrence(authority[1..], ':');
    }
  }

  lemma AuthorityFails(scheme: Scheme, authority: string, e: Error)
    ensures ParseAuthority(scheme, authority) == Err(e) <==> Faulty(authority, e)
  {
    if authority == [] {
      PlainOpensNoBracket(authority);
    } else if authority[0] == '[' {
      assert authority == "[" + authority[1..];
      BracketedFails(authority[1..], e);
    } else {
      PlainFails(authority, e);
    }
  }

  /** What is wrong with an address: no `://`, a scheme that is neither `ws` nor
      `wss` before the first one, or a faulty authority after it. */
  ghost predicate Wrong(s: string, e: Error) {
    match e
    case MissingScheme => forall i: nat :: !OccursAt(s, "://", i)
    case UnsupportedScheme(scheme) =>
      && Find(s, "://") == Some(|scheme|) && scheme <= s && scheme != "ws" && scheme != "wss"
    case _ =>
      exists authority: string :: (s == "ws://" + authority || s == "wss://" + authority) && Faulty(authority, e)
  }

  lemma SpelledSchemes(s: string)
    ensures forall authority: string :: s == "ws://" + authority ==> SplitOnce(s, "://") == Some(("ws", authority))
    ensures forall authority: string :: s == "wss://" + authority ==> SplitOnce(s, "://") == Some(("wss", authority))
  {
    forall authority: string | s == "ws://" + authority ensures SplitOnce(s, "://") == Some(("ws", authority)) {
      SchemeSplits(Ws, authority);
      assert s == SchemeName(Ws) + "://" + authority;
    }
    forall authority: string | s == "wss://" + authority ensures SplitOnce(s, "://") == Some(("wss", authority)) {
      SchemeSplits(Wss, authority);
      assert s == SchemeName(Wss) + "://" + authority;
    }
  }

  lemma SamePrefix(s: string, a: string, b: string)
    ensures a <= s && b <= s && |a| == |b| ==> a == b
  {
  }

  lemma SchemeIsNoFault(authority: string, e: Error)
    ensures e.MissingScheme? || e.UnsupportedScheme? ==> !Faulty(authority, e)
  {
  }

  lemma FirstSeparator(s: string)
    ensures SplitOnce(s, "://").None? <==> forall i: nat :: !OccursAt(s, "://", i)
    ensures match SplitOnce(s, "://")
            case None => Find(s, "://").None?
            case Some((scheme, authority)) =>
              && s == scheme + "://" + authority
              && forall other: string :: Find(s, "://") == Some(|other|) && other <= s <==> other == scheme
  {
    FindIsFirst(s, "://");
    if SplitOnce(s, "://").Some? {
      var scheme := SplitOnce(s, "://").value.0;
      forall other: string ensures Find(s, "://") == Some(|other|) && other <= s <==> other == scheme {
        SamePrefix(s, scheme, other);
      }
    }
  }

  /** Parsing refuses exactly the faulty addresses, each for what is wrong with it. */
  lemma ParseFailsIff(s: string, e: Error)
    ensures Parse(s) == Err(e) <==> Wrong(s, e)
  {
    hide ParseAuthority, Faulty, Find, OccursAt, SplitOnce;
    FirstSeparator(s);
    SpelledSchemes(s);
    if SplitOnce(s, "://").Some? {
      var (scheme, authority) := SplitOnce(s, "://").value;
      SchemeIsNoFault(authority, e);
      if scheme == "ws" || scheme == "wss" {
        AuthorityFails(if scheme == "ws" then Ws else Wss, authority, e);
        assert s == if scheme == "ws" then "ws://" + authority else "wss://" + authority;
      }
    }
  }
}
