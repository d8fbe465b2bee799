/** The Docker names of volumes and of networks named by app id: printing and
    taking apart. */
module ResourceNames {
  import opened Text

  datatype Parts = Parts(appId: nat, name: string)

  /** The greedy run of `\S` at the start of `s`. */
  function NonSpaceRun(s: string): (k: nat)
    ensures k <= |s| && NoSpace(s[..k])
    ensures k < |s| ==> IsSpace(s[k])
  {
    if s == [] || IsSpace(s[0]) then 0
    else
      var k := 1 + NonSpaceRun(s[1..]);
      assert forall i | 1 <= i < k :: s[i] == s[1..][..k - 1][i - 1];
      k
  }

  /** Matching `(\d+)_(\S+)` at the start of `s`. A digit is neither `_` nor
      white space, so the greedy runs need no backtracking. */
  function MatchHere(s: string): Option<Parts> {
    var k := DigitRun(s);
    if k == 0 || k >= |s| || s[k] != '_' then None
    else
      var n := NonSpaceRun(s[k + 1..]);
      if n == 0 then None else Some(Parts(DecValue(s[..k]), s[k + 1..k + 1 + n]))
  }

  /** The first position at which the expression matches. */
  function MatchAnywhere(s: string): Option<Parts> {
    if MatchHere(s).Some? then MatchHere(s)
    else if s == [] then None
    else MatchAnywhere(s[1..])
  }

  /** `Volume.generateDockerName` and, with an app id, `Network.generateDockerName` */
  function GenerateName(appId: nat, name: string): string {
    Scoped(appId, name)
  }

  /** `Volume.deconstructDockerName`: the expression is not anchored. */
  function DeconstructVolume(s: string): Option<Parts> {
    MatchAnywhere(s)
  }

  /** What a network's name gives: an app id, or the digits as the app's uuid
      when the id is already known from a label. */
  datatype NetworkParts = NetworkParts(appId: Option<nat>, appUuid: Option<string>, name: string)

  predicate IsHex(c: char) {
    IsDigit(c) || 'a' <= c <= 'f' || 'A' <= c <= 'F' || c == '-'
  }

  function HexRun(s: string): (k: nat)
    ensures k <= |s|
  {
    if s == [] || !IsHex(s[0]) then 0 else 1 + HexRun(s[1..])
  }

  /** `Network.deconstructDockerName` */
  function DeconstructNetwork(s: string, known: Option<nat>): Option<NetworkParts> {
    match MatchHere(s)
    case Some(parts) =>
      var digits := s[..DigitRun(s)];
      Some(if known.Some? then NetworkParts(known, Some(digits), parts.name) else NetworkParts(Some(parts.appId),
          None, parts.name))
    case None =>
      var k := HexRun(s);
      if k < 32 || k >= |s| || s[k] != '_' then None
      else
        var n := NonSpaceRun(s[k + 1..]);
        if n == 0 then None else Some(NetworkParts(None, Some(s[..k]), s[k + 1..k + 1 + n]))
  }

  lemma {:induction false} NonSpaceWhole(s: string)
    ensures NonSpaceRun(s) == |s| <==> NoSpace(s)
  {
    if s != [] {
      NonSpaceWhole(s[1..]);
      if NoSpace(s) {
        assert forall i | 0 <= i < |s| - 1 :: s[1..][i] == s[i + 1];
      }
    }
    assert s[..|s|] == s;
  }

  lemma GeneratedMatches(appId: nat, name: string)
    ensures MatchHere(GenerateName(appId, name)) ==
            if NonSpaceRun(name) == 0 then None else Some(Parts(appId, name[..NonSpaceRun(name)]))
  {
    hide Dec, DecValue, DigitRun, NonSpaceRun;
    var s := GenerateName(appId, name);
    ScopedRun(appId, name);
    DecRoundTrip(appId);
    var k, n := DigitRun(s), NonSpaceRun(name);
    assert s[k + 1..] == name;
    assert s[k + 1..k + 1 + n] == s[k + 1..][..n];
  }

  /** Taking a generated name apart gives the id and the name back exactly when
      the name is not empty and has no white space. */
  lemma VolumeRoundTrip(appId: nat, name: string)
    ensures DeconstructVolume(GenerateName(appId, name)) == Some(Parts(appId, name)) <==> name != "" && NoSpace(name)
  {
    GeneratedMatches(appId, name);
    NonSpaceWhole(name);
    assert name[..|name|] == name;
    FoundName(GenerateName(appId, name));
  }

  /** Any name that is found is not empty and has no white space. */
  lemma {:induction false} FoundName(s: string)
    ensures MatchAnywhere(s).Some? ==> MatchAnywhere(s).value.name != "" && NoSpace(MatchAnywhere(s).value.name)
  {
    if MatchHere(s).None? && s != [] {
      FoundName(s[1..]);
    } else if MatchHere(s).Some? {
      var k := DigitRun(s);
      assert s[k + 1..][..NonSpaceRun(s[k + 1..])] == s[k + 1..k + 1 + NonSpaceRun(s[k + 1..])];
    }
  }

  lemma NetworkRoundTrip(appId: nat, name: string)
    ensures DeconstructNetwork(GenerateName(appId, name), None) == Some(NetworkParts(Some(appId), None, name))
            <==> name != "" && NoSpace(name)
    ensures name != "" && NoSpace(name) ==>
              DeconstructNetwork(GenerateName(appId, name), Some(appId)) == Some(NetworkParts(Some(appId),
                  Some(Dec(appId)), name))
  {
    GeneratedMatches(appId, name);
    NonSpaceWhole(name);
    ScopedRun(appId, name);
    assert name[..|name|] == name;
  }

  /** Different apps, and different names within an app, never share a volume or
      a network. */
  lemma NoSharing(a: nat, x: string, b: nat, y: string)
    ensures GenerateName(a, x) == GenerateName(b, y) <==> a == b && x == y
  {
    if GenerateName(a, x) == GenerateName(b, y) {
      ScopedInjective(a, x, b, y);
    }
  }

  /** The volume expression is not anchored: a name that only ends like a
      generated one is taken apart all the same. */
  lemma {:induction false} UnanchoredVolume(prefix: string, appId: nat, name: string)
    requires name != "" && NoSpace(name) && forall i | 0 <= i < |prefix| :: !IsDigit(prefix[i])
    ensures DeconstructVolume(prefix + GenerateName(appId, name)) == Some(Parts(appId, name))
  {
    if prefix == "" {
      assert prefix + GenerateName(appId, name) == GenerateName(appId, name);
      VolumeRoundTrip(appId, name);
    } else {
      var s := prefix + GenerateName(appId, name);
      UnanchoredVolume(prefix[1..], appId, name);
      assert s[1..] == prefix[1..] + GenerateName(appId, name);
      assert s[0] == prefix[0] && DigitRun(s) == 0;
    }
  }

  /** Exactly which volume names are read back as themselves: those that were
      generated for a non-empty name without white space. */
  lemma ReadAsItself(s: string)
    ensures (DeconstructVolume(s).Some?
             && GenerateName(DeconstructVolume(s).value.appId, DeconstructVolume(s).value.name) == s) <==>
            exists a: nat, n: string :: n != "" && NoSpace(n) && s == GenerateName(a, n)
  {
    hide MatchAnywhere, Scoped, NoSpace;
    FoundName(s);
    if a: nat, n: string :| n != "" && NoSpace(n) && s == GenerateName(a, n) {
      VolumeRoundTrip(a, n);
    }
  }

  /** A leading zero is not generated, but it is read: `01_a` belongs to app 1. */
  lemma LeadingZero(appId: nat, name: string)
    requires name != "" && NoSpace(name)
    ensures DeconstructVolume("0" + GenerateName(appId, name)) == Some(Parts(appId, name))
    ensures "0" + GenerateName(appId, name) != GenerateName(appId, name)
  {
    hide Dec, NonSpaceRun;
    var s, t := "0" + GenerateName(appId, name), GenerateName(appId, name);
    ScopedRun(appId, name);
    NonSpaceWhole(name);
    DecRoundTrip(appId);
    var k := |Dec(appId)|;
    assert s[1..] == t && IsDigit(s[0]);
    assert s[..k + 1] == "0" + Dec(appId);
    ZeroFirst(Dec(appId));
    assert s[k + 2..] == name && s[k + 1] == '_';
    assert s[k + 2..k + 2 + |name|] == name;
    assert |s| == |t| + 1;
  }

  lemma {:induction false} ZeroFirst(digits: string)
    requires AllDigits(digits)
    ensures AllDigits("0" + digits) && DecValue("0" + digits) == DecValue(digits)
  {
    var s := "0" + digits;
    if digits != "" {
      var n := |digits| - 1;
      ZeroFirst(digits[..n]);
      assert s[..|s| - 1] == "0" + digits[..n] && s[|s| - 1] == digits[n];
    } else {
      assert s[..0] == "" && s[0] == '0';
    }
  }
}
