/** The client address behind a chain of proxies: the reverse walk over the X-Forwarded-For lines of
    backend/src/admin_auth.rs. */
module ForwardedChain {
  import opened Wrappers

  datatype Ip = V4(bits: nat) | V6(bits: nat)

  datatype Forwarded = Missing | Resolved(ip: Ip) | Invalid

  /** The networks trusted as proxies, and the parser of one trimmed list element. */
  datatype Config = Config(trusted: Ip -> bool, parse: string -> Option<Ip>)

  /** The elements of a comma-separated list, left to right; never empty. */
  function Split(text: string): (parts: seq<string>)
    ensures |parts| > 0
  {
    if text == "" then [""]
    else
      var rest := Split(text[1..]);
      if text[0] == ',' then [""] + rest else [[text[0]] + rest[0]] + rest[1..]
  }

  function Join(parts: seq<string>): string
    requires |parts| > 0
  {
    if |parts| == 1 then parts[0] else parts[0] + "," + Join(parts[1..])
  }

  lemma {:induction false} JoinSplits(text: string)
    ensures Join(Split(text)) == text
    ensures forall k | 0 <= k < |Split(text)| :: ',' !in Split(text)[k]
  {
    if text == "" {
    } else {
      JoinSplits(text[1..]);
      var rest := Split(text[1..]);
      if text[0] == ',' {
        assert Split(text)[1..] == rest;
      } else {
        assert Split(text) == [[text[0]] + rest[0]] + rest[1..];
        assert Split(text)[1..] == rest[1..];
      }
    }
  }

  /** Split takes apart exactly what Join puts together. */
  lemma {:induction false} SplitJoins(parts: seq<string>)
    requires |parts| > 0 && forall k | 0 <= k < |parts| :: ',' !in parts[k]
    ensures Split(Join(parts)) == parts
    decreases |parts|, |parts[0]|
  {
    var text := Join(parts);
    if parts[0] == "" {
      if |parts| > 1 {
        SplitJoins(parts[1..]);
        assert text[1..] == Join(parts[1..]);
        assert parts == [""] + parts[1..];
      }
    } else {
      var shorter := [parts[0][1..]] + parts[1..];
      assert shorter[1..] == parts[1..];
      SplitJoins(shorter);
      assert text[1..] == Join(shorter);
      assert parts[0] == [text[0]] + shorter[0];
      assert text[0] == parts[0][0];
    }
  }

  /** forwarded_for_client_ip: header lines in order, None for a line that is not text. */
  method ForwardedFor(lines: seq<Option<string>>, peer: Ip, config: Config) returns (result: Forwarded)
    ensures result == Walk(Hops(lines, config), peer, false, config)
  {
    hide Walk, Hops, Parsed, Split, Parse;
    var found, client := false, peer;
    var i := |lines|;
    assert lines[..i] == lines;
    while i > 0
      invariant 0 <= i <= |lines|
      invariant Walk(Hops(lines, config), peer, false, config) == Walk(Hops(lines[..i], config), client, found, config)
    {
      i := i - 1;
      LastLine(lines, i, config);
      ghost var left := Hops(lines[..i], config);
      if lines[i].None? {
        WalkLast(left, NotText, client, found, config);
        return Invalid;
      }
      var parts := Split(lines[i].value);
      var j := |parts|;
      assert parts[..j] == parts;
      while j > 0
        invariant 0 <= j <= |parts|
        invariant Walk(Hops(lines, config), peer, false, config) == Walk(left + Parsed(parts[..j], config), client, found, config)
      {
        LastPart(left, parts, j, config);
        WalkLast(left + Parsed(parts[..j - 1], config), Parse(parts[j - 1], config), client, found, config);
        ParseMeans(parts[j - 1], config);
        if !config.trusted(client) {
          return Resolved(client);
        }
        j := j - 1;
        var forwarded := config.parse(parts[j]);
        if forwarded.None? {
          return Invalid;
        }
        client := forwarded.value;
        found := true;
      }
      NoParts(left, parts, config);
    }
    WalkEnds(lines, client, found, config);
    result := if found then Resolved(client) else Missing;
  }

  /** resolved_client_ip: headers count only from a trusted peer; X-Real-IP, if sent exactly once, counts
      only when there is no X-Forwarded-For at all, and an unreadable chain yields the peer. */
  method ResolvedClientIp(trustHeaders: bool, lines: seq<Option<string>>, realIp: seq<Option<string>>, peer: Ip, config: Config)
    returns (client: Ip)
    ensures !trustHeaders || !config.trusted(peer) ==> client == peer
    ensures trustHeaders && config.trusted(peer) ==>
              client == match Walk(Hops(lines, config), peer, false, config)
                        case Resolved(ip) => ip
                        case Invalid => peer
                        case Missing =>
                          if |realIp| == 1 && realIp[0].Some? && config.parse(realIp[0].value).Some?
                          then config.parse(realIp[0].value).value else peer
  {
    if !trustHeaders || !config.trusted(peer) {
      return peer;
    }
    var forwarded := ForwardedFor(lines, peer, config);
    if forwarded.Resolved? {
      return forwarded.ip;
    }
    if forwarded.Invalid? {
      return peer;
    }
    if |realIp| != 1 || realIp[0].None? || config.parse(realIp[0].value).None? {
      return peer;
    }
    return config.parse(realIp[0].value).value;
  }

  // ----- the walk over hops

  /** One element of the chain: an address, an element that is no address, or a whole line that is not text. */
  datatype Hop = Address(ip: Ip) | NotAnAddress | NotText

  function Parse(part: string, config: Config): Hop {
    var forwarded := config.parse(part);
    if forwarded.Some? then Address(forwarded.value) else NotAnAddress
  }

  function Parsed(parts: seq<string>, config: Config): (hops: seq<Hop>)
    ensures |hops| == |parts|
    ensures NotText !in hops
  {
    if parts == [] then [] else Parsed(parts[..|parts| - 1], config) + [Parse(parts[|parts| - 1], config)]
  }

  function LineHops(line: Option<string>, config: Config): seq<Hop> {
    if line.None? then [NotText] else Parsed(Split(line.value), config)
  }

  function Hops(lines: seq<Option<string>>, config: Config): seq<Hop> {
    if lines == [] then [] else Hops(lines[..|lines| - 1], config) + LineHops(lines[|lines| - 1], config)
  }

  /** The walk from the right; the trust of the current address is asked only when another element follows. */
  function Walk(hops: seq<Hop>, client: Ip, found: bool, config: Config): Forwarded {
    if hops == [] then (if found then Resolved(client) else Missing)
    else
      var hop := hops[|hops| - 1];
      if hop.NotText? then Invalid
      else if !config.trusted(client) then Resolved(client)
      else if hop.NotAnAddress? then Invalid
      else Walk(hops[..|hops| - 1], hop.ip, true, config)
  }

  lemma WalkLast(left: seq<Hop>, hop: Hop, client: Ip, found: bool, config: Config)
    ensures Walk(left + [hop], client, found, config)
         == if hop.NotText? then Invalid
            else if !config.trusted(client) then Resolved(client)
            else if hop.NotAnAddress? then Invalid
            else Walk(left, hop.ip, true, config)
  {
    assert (left + [hop])[..|left|] == left;
  }

  lemma WalkEnds(lines: seq<Option<string>>, client: Ip, found: bool, config: Config)
    ensures Walk(Hops(lines[..0], config), client, found, config) == if found then Resolved(client) else Missing
  {
  }

  lemma LastLine(lines: seq<Option<string>>, i: nat, config: Config)
    requires i < |lines|
    ensures Hops(lines[..i + 1], config)
         == Hops(lines[..i], config) + if lines[i].None? then [NotText] else Parsed(Split(lines[i].value), config)
  {
    assert lines[..i + 1][..i] == lines[..i];
  }

  lemma LastPart(left: seq<Hop>, parts: seq<string>, j: nat, config: Config)
    requires 0 < j <= |parts|
    ensures left + Parsed(parts[..j], config) == left + Parsed(parts[..j - 1], config) + [Parse(parts[j - 1], config)]
  {
    assert parts[..j][..j - 1] == parts[..j - 1];
  }

  lemma ParseMeans(part: string, config: Config)
    ensures !Parse(part, config).NotText?
    ensures config.parse(part).None? ==> Parse(part, config).NotAnAddress?
    ensures config.parse(part).Some? ==> Parse(part, config) == Address(config.parse(part).value)
  {
  }

  lemma NoParts(left: seq<Hop>, parts: seq<string>, config: Config)
    ensures left + Parsed(parts[..0], config) == left
  {
  }

  // ----- what the walk computes

  /** The address at position i of the chain hops + [peer]. */
  predicate IsAt(hops: seq<Hop>, peer: Ip, i: nat, ip: Ip) {
    i <= |hops| && (if i == |hops| then ip == peer else hops[i] == Address(ip))
  }

  /** Every position right of i is a trusted address. */
  ghost predicate TrustedRightOf(hops: seq<Hop>, peer: Ip, i: nat, config: Config) {
    && (i < |hops| ==> config.trusted(peer))
    && forall j | i < j < |hops| :: hops[j].Address? && config.trusted(hops[j].ip)
  }

  /** Position i is where the walk may stop: an untrusted address with a readable neighbour on its
      left, or the left end of the chain. */
  ghost predicate StopsAt(hops: seq<Hop>, peer: Ip, i: nat, ip: Ip, config: Config) {
    && IsAt(hops, peer, i, ip)
    && TrustedRightOf(hops, peer, i, config)
    && (if i == 0 then |hops| > 0 else !config.trusted(ip) && !hops[i - 1].NotText?)
  }

  lemma {:induction false} WalkStops(hops: seq<Hop>, peer: Ip, found: bool, config: Config) returns (i: nat)
    requires Walk(hops, peer, found, config).Resolved? && (hops == [] ==> !found)
    ensures StopsAt(hops, peer, i, Walk(hops, peer, found, config).ip, config)
  {
    var last := hops[|hops| - 1];
    var left := hops[..|hops| - 1];
    if !config.trusted(peer) {
      i := |hops|;
    } else if left == [] {
      i := 0;
    } else {
      i := WalkStops(left, last.ip, true, config);
    }
  }

  lemma {:induction false} StopIsFound(hops: seq<Hop>, peer: Ip, found: bool, i: nat, ip: Ip, config: Config)
    requires StopsAt(hops, peer, i, ip, config)
    ensures Walk(hops, peer, found, config) == Resolved(ip)
  {
    if i < |hops| {
      var last := hops[|hops| - 1];
      var left := hops[..|hops| - 1];
      assert last.Address?;
      if left != [] {
        StopIsFound(left, last.ip, true, i, ip, config);
      }
    }
  }

  /** For every header, readable or not: an address is the answer exactly when the walk may stop at it. */
  lemma ResolvedIff(hops: seq<Hop>, peer: Ip, ip: Ip, config: Config)
    ensures Walk(hops, peer, false, config) == Resolved(ip) <==> exists i :: StopsAt(hops, peer, i, ip, config)
    ensures Walk(hops, peer, false, config) == Missing <==> hops == []
  {
    if Walk(hops, peer, false, config) == Resolved(ip) {
      var i := WalkStops(hops, peer, false, config);
    }
    if i: nat :| StopsAt(hops, peer, i, ip, config) {
      StopIsFound(hops, peer, false, i, ip, config);
    }
    NotMissing(hops, peer, false, config);
  }

  lemma {:induction false} NotMissing(hops: seq<Hop>, peer: Ip, found: bool, config: Config)
    ensures Walk(hops, peer, found, config) == Missing ==> hops == [] && !found
  {
    if hops != [] && hops[|hops| - 1].Address? {
      NotMissing(hops[..|hops| - 1], hops[|hops| - 1].ip, true, config);
    }
  }

  /** When every element is an address the answer is the rightmost untrusted address of the chain
      hops + [peer], or its leftmost address when all are trusted. */
  lemma {:induction false} RightmostUntrusted(ips: seq<Ip>, peer: Ip, config: Config) returns (i: nat)
    requires ips != []
    ensures i <= |ips|
    ensures Walk(seq(|ips|, k requires 0 <= k < |ips| => Address(ips[k])), peer, false, config) == Resolved((ips + [peer])[i])
    ensures forall j | i < j <= |ips| :: config.trusted((ips + [peer])[j])
    ensures config.trusted((ips + [peer])[i]) ==> i == 0
  {
    var hops := seq(|ips|, k requires 0 <= k < |ips| => Address(ips[k]));
    i := |ips|;
    while i > 0 && config.trusted((ips + [peer])[i])
      invariant i <= |ips|
      invariant forall j | i < j <= |ips| :: config.trusted((ips + [peer])[j])
    {
      i := i - 1;
    }
    assert (ips + [peer])[|ips|] == peer;
    forall j | i < j < |hops| ensures hops[j].Address? && config.trusted(hops[j].ip) {
      assert (ips + [peer])[j] == ips[j];
    }
    StopIsFound(hops, peer, false, i, (ips + [peer])[i], config);
  }

  /** Nothing left of the first untrusted hop matters, with one exception: a line that is not text
      directly to its left turns the answer into Invalid. */
  lemma LeftOfUntrustedIsIgnored(left: seq<Hop>, right: seq<Hop>, peer: Ip, ip: Ip, config: Config)
    requires IsAt(right, peer, 0, ip) && !config.trusted(ip) && TrustedRightOf(right, peer, 0, config)
    ensures left != [] ==> (Walk(left + right, peer, false, config) == Resolved(ip) <==> !left[|left| - 1].NotText?)
    ensures left != [] && left[|left| - 1].NotText? ==> Walk(left + right, peer, false, config) == Invalid
  {
    var hops := left + right;
    if left != [] {
      assert forall j | |left| <= j < |hops| :: hops[j] == right[j - |left|];
      assert IsAt(hops, peer, |left|, ip) && TrustedRightOf(hops, peer, |left|, config);
      if left[|left| - 1].NotText? {
        assert hops[|left| - 1].NotText?;
        BlockedByNotText(hops, peer, |left|, config, false);
      } else {
        StopIsFound(hops, peer, false, |left|, ip, config);
      }
    }
  }

  lemma {:induction false} BlockedByNotText(hops: seq<Hop>, peer: Ip, i: nat, config: Config, found: bool)
    requires 0 < i <= |hops| && hops[i - 1].NotText?
    requires i < |hops| ==> hops[i].Address?
    requires TrustedRightOf(hops, peer, i, config)
    ensures Walk(hops, peer, found, config) == Invalid
  {
    if i < |hops| {
      assert hops[|hops| - 1].Address?;
      BlockedByNotText(hops[..|hops| - 1], hops[|hops| - 1].ip, i, config, true);
    }
  }

  /** Whatever a client writes in lines of its own, as text, left of the line its proxy adds, the
      answer is the address that proxy saw. */
  lemma SpoofedLinesAreIgnored(spoofed: seq<Option<string>>, line: string, peer: Ip, ip: Ip, config: Config)
    requires forall k | 0 <= k < |spoofed| :: spoofed[k].Some?
    requires config.trusted(peer) && !config.trusted(ip) && Split(line) == [line] && config.parse(line) == Some(ip)
    ensures Walk(Hops(spoofed + [Some(line)], config), peer, false, config) == Resolved(ip)
  {
    var lines := spoofed + [Some(line)];
    assert lines[..|lines| - 1] == spoofed;
    var left, right := Hops(spoofed, config), Parsed([line], config);
    assert Parsed([line][..0], config) == [];
    assert right == [Address(ip)];
    TextHasNoGaps(spoofed, config);
    if left == [] {
      assert left + right == right;
      StopIsFound(right, peer, false, 0, ip, config);
    } else {
      assert left[|left| - 1] in left;
      LeftOfUntrustedIsIgnored(left, right, peer, ip, config);
    }
  }

  lemma {:induction false} TextHasNoGaps(lines: seq<Option<string>>, config: Config)
    requires forall k | 0 <= k < |lines| :: lines[k].Some?
    ensures NotText !in Hops(lines, config)
  {
    if lines == [] {
    } else {
      TextHasNoGaps(lines[..|lines| - 1], config);
    }
  }

  /** One line that is not text, left of everything that matters, changes the answer. */
  lemma UnreadableLineChangesTheAnswer(line: string, peer: Ip, ip: Ip, config: Config)
    requires config.trusted(peer) && !config.trusted(ip) && Split(line) == [line] && config.parse(line) == Some(ip)
    ensures Walk(Hops([Some(line)], config), peer, false, config) == Resolved(ip)
    ensures Walk(Hops([None, Some(line)], config), peer, false, config) == Invalid
  {
    var none: seq<Option<string>> := [];
    assert none + [Some(line)] == [Some(line)];
    SpoofedLinesAreIgnored(none, line, peer, ip, config);
    assert [None, Some(line)][..1] == [None];
    assert [None][..0] == none;
    var right := Parsed([line], config);
    assert Parsed([line][..0], config) == [];
    assert right == [Address(ip)];
    assert Hops([None], config) == [NotText];
    LeftOfUntrustedIsIgnored([NotText], right, peer, ip, config);
  }
}
