/**
 License values: editions, the open feature set and limits, validated claims and
 the runtime information built from them.
 */
module License {
  import opened Basics

  datatype Edition = CE | Business | Enterprise | Unrecognised(name: string)

  type Feature = string

  const ALL_FEATURES: seq<Feature> := [
    "custom_roles", "oauth", "ldap", "multi_notification", "audit_export", "multi_backup", "api_keys",
    "priority_support", "swarm", "template_catalog", "compliance", "opa_policies", "image_signing",
    "runtime_security", "log_aggregation", "custom_dashboards", "git_sync", "ephemeral_envs",
    "manifest_builder", "registry_browsing"]

  /** Numeric caps; 0 is unlimited. */
  datatype Limits = Limits(
    nodes: int, users: int, teams: int, customRoles: int, ldapServers: int, oauthProviders: int,
    apiKeys: int, gitConnections: int, s3Connections: int, backupDestinations: int, notificationChannels: int)

  const OPEN_LIMITS := Limits(0, 0, 0, 0, 0, 0, 0, 0, 0, 0, 0)

  datatype Claims = Claims(
    licenseId: string, edition: Edition, maxNodes: int, maxUsers: int, features: seq<Feature>, expiresAt: Option<int>)

  datatype Info = Info(
    edition: Edition, valid: bool, licenseId: string, expiresAt: Option<int>,
    features: seq<Feature>, limits: Limits, instanceId: string)

  const OPEN_INFO := Info(CE, true, "", None, ALL_FEATURES, OPEN_LIMITS, "")

  /** The token library: what a token says, and whether signature, algorithm and
      time window hold at a given moment. */
  datatype Verifier = Verifier(payload: string -> Claims, accepted: (string, int) -> bool)

  /** The empty string is not a token. */
  ghost predicate WellFormed(v: Verifier) {
    forall t :: !v.accepted("", t)
  }

  function Validate(v: Verifier, key: string, now: int): Option<Claims> {
    if !v.accepted(key, now) then None
    else
      var c := v.payload(key);
      if c.edition != Business && c.edition != Enterprise then None
      else if |c.licenseId| < 4 || c.licenseId[..4] != "USN-" then None
      else Some(c)
  }

  function ClaimsToInfo(c: Claims, instanceId: string, now: int): Info {
    var expired := c.expiresAt.Some? && now > c.expiresAt.value;
    Info(c.edition, !expired, c.licenseId, c.expiresAt, ALL_FEATURES, OPEN_LIMITS, instanceId)
  }

  predicate Open(info: Info) {
    info.features == ALL_FEATURES && info.limits == OPEN_LIMITS
  }

  method HasFeature(info: Info, f: Feature) returns (r: bool)
    ensures r <==> info.valid && f in info.features
  {
    if !info.valid {
      return false;
    }
    for i := 0 to |info.features|
      invariant f !in info.features[..i]
    {
      if info.features[i] == f {
        return true;
      }
    }
    return false;
  }

  // ------------------------------------------------------------------------
  // The text on disk
  // ------------------------------------------------------------------------

  /** White space as Unicode defines it. */
  predicate IsSpace(c: char) {
    var n := c as int;
    || 9 <= n <= 13 || n == 0x20 || n == 0x85 || n == 0xA0 || n == 0x1680
    || 0x2000 <= n <= 0x200A || n == 0x2028 || n == 0x2029 || n == 0x202F || n == 0x205F || n == 0x3000
  }

  function TrimLeft(s: string): string {
    if s != [] && IsSpace(s[0]) then TrimLeft(s[1..]) else s
  }

  function TrimRight(s: string): string {
    if s != [] && IsSpace(s[|s| - 1]) then TrimRight(s[..|s| - 1]) else s
  }

  function Trim(s: string): string {
    TrimRight(TrimLeft(s))
  }

  /** Neither end of the text is white space. */
  predicate Trimmed(s: string) {
    s == [] || (!IsSpace(s[0]) && !IsSpace(s[|s| - 1]))
  }

  lemma {:induction false} TrimLeftAppend(s: string, c: char)
    requires IsSpace(c)
    ensures TrimLeft(s + [c]) == if TrimLeft(s) == [] then [] else TrimLeft(s) + [c]
  {
    if s == [] {
      assert (s + [c])[1..] == [];
    } else if IsSpace(s[0]) {
      assert (s + [c])[1..] == s[1..] + [c];
      TrimLeftAppend(s[1..], c);
    }
  }

  lemma TrimTrailing(s: string, c: char)
    requires IsSpace(c)
    ensures Trim(s + [c]) == Trim(s)
  {
    TrimLeftAppend(s, c);
    var t := TrimLeft(s);
    if t != [] {
      assert (t + [c])[..|t|] == t;
    }
  }

  lemma {:induction false} TrimLeftStops(s: string)
    ensures TrimLeft(s) != [] ==> !IsSpace(TrimLeft(s)[0])
  {
    if s != [] && IsSpace(s[0]) {
      TrimLeftStops(s[1..]);
    }
  }

  lemma {:induction false} TrimRightStops(s: string)
    ensures TrimRight(s) <= s
    ensures TrimRight(s) != [] ==> !IsSpace(TrimRight(s)[|TrimRight(s)| - 1])
  {
    if s != [] && IsSpace(s[|s| - 1]) {
      TrimRightStops(s[..|s| - 1]);
    }
  }

  lemma TrimIsTrimmed(s: string)
    ensures Trimmed(Trim(s))
    ensures Trim(s) == s <==> Trimmed(s)
  {
    TrimLeftStops(s);
    TrimRightStops(TrimLeft(s));
  }

  ghost predicate AllSpace(s: string) {
    forall i :: 0 <= i < |s| ==> IsSpace(s[i])
  }

  lemma {:induction false} TrimLeftCuts(s: string) returns (l: string)
    ensures AllSpace(l) && s == l + TrimLeft(s)
  {
    l := [];
    if s != [] && IsSpace(s[0]) {
      var rest := TrimLeftCuts(s[1..]);
      l := [s[0]] + rest;
      assert s == [s[0]] + s[1..];
    }
  }

  lemma {:induction false} TrimRightCuts(s: string) returns (r: string)
    ensures AllSpace(r) && s == TrimRight(s) + r
  {
    r := [];
    if s != [] && IsSpace(s[|s| - 1]) {
      var rest := TrimRightCuts(s[..|s| - 1]);
      r := rest + [s[|s| - 1]];
      assert s == s[..|s| - 1] + [s[|s| - 1]];
    }
  }

  /** Trimming cuts off white space at both ends, and nothing else. */
  lemma TrimCuts(s: string) returns (l: string, r: string)
    ensures AllSpace(l) && AllSpace(r) && s == l + Trim(s) + r
  {
    l := TrimLeftCuts(s);
    r := TrimRightCuts(TrimLeft(s));
    assert l + (Trim(s) + r) == l + Trim(s) + r;
  }

  lemma {:induction false} TrimLeftPadded(l: string, s: string)
    requires AllSpace(l)
    ensures TrimLeft(l + s) == TrimLeft(s)
  {
    if l == [] {
      assert l + s == s;
    } else {
      assert (l + s)[1..] == l[1..] + s;
      TrimLeftPadded(l[1..], s);
    }
  }

  lemma {:induction false} TrimRightPadded(s: string, r: string)
    requires AllSpace(r)
    ensures TrimRight(s + r) == TrimRight(s)
  {
    if r == [] {
      assert s + r == s;
    } else {
      assert (s + r)[..|s + r| - 1] == s + r[..|r| - 1];
      TrimRightPadded(s, r[..|r| - 1]);
    }
  }

  ghost predicate Padding(s: string) {
    forall i :: 0 <= i < |s| ==> s[i] == ' ' || s[i] == '\t' || s[i] == '\r' || s[i] == '\n'
  }

  /** A key of visible characters that was pasted with blanks, tabs or line ends
      around it is found without them. */
  lemma PaddedKey(l: string, s: string, r: string)
    requires Padding(l) && Padding(r)
    requires s != "" && '!' <= s[0] <= '~' && '!' <= s[|s| - 1] <= '~'
    ensures Trim(l + s + r) == s
  {
    assert AllSpace(l) && AllSpace(r);
    assert l + s + r == l + (s + r);
    TrimLeftPadded(l, s + r);
    assert (s + r)[0] == s[0] && TrimLeft(s + r) == s + r;
    TrimRightPadded(s, r);
  }

  function Load(disk: Option<string>): string {
    if disk.None? then "" else Trim(disk.value)
  }

  /** How a write of the file ends: done, refused before the file is opened, or
      failed after the file has been emptied and `count` characters written. */
  datatype Writing = Written | Refused | Torn(count: nat)

  function AfterSave(file: Option<string>, key: string, w: Writing): Option<string> {
    var text := key + "\n";
    match w
    case Written => Some(text)
    case Refused => file
    case Torn(n) => Some(text[..if n < |text| then n else |text|])
  }

  lemma {:induction false} TrimLeftShorter(s: string, n: nat)
    requires n < |s| && !IsSpace(s[|s| - 1])
    ensures |TrimLeft(s[..n])| < |TrimLeft(s)|
  {
    if IsSpace(s[0]) {
      TrimLeftShorter(s[1..], if n == 0 then 0 else n - 1);
      if n > 0 {
        assert s[..n][1..] == s[1..][..n - 1];
      } else {
        assert s[1..][..0] == s[..0];
      }
    }
  }

  lemma {:induction false} TrimLeftLast(s: string)
    requires s != [] && !IsSpace(s[|s| - 1])
    ensures Trim(s) == TrimLeft(s)
  {
    if IsSpace(s[0]) {
      TrimLeftLast(s[1..]);
    }
  }

  lemma {:induction false} TrimEnd(s: string, n: nat)
    requires |TrimRight(s)| <= n <= |s|
    ensures Trim(s[..n]) == Trim(s)
  {
    if n == |s| {
      assert s[..n] == s;
    } else {
      var m := |s| - 1;
      TrimEnd(s[..m], n);
      assert s[..m][..n] == s[..n] && s == s[..m] + [s[m]];
      TrimTrailing(s[..m], s[m]);
    }
  }

  lemma TrimShorter(r: string, n: nat)
    requires n < |r| && !IsSpace(r[|r| - 1])
    ensures |Trim(r[..n])| < |Trim(r)|
  {
    TrimLeftShorter(r, n);
    TrimLeftLast(r);
    TrimRightStops(TrimLeft(r[..n]));
  }

  /** Part of a text trims to the same as the whole exactly when it reaches beyond
      the last character that is not white space. */
  lemma TrimPartIff(s: string, n: nat)
    requires n <= |s|
    ensures Trim(s[..n]) == Trim(s) <==> |TrimRight(s)| <= n
  {
    if |TrimRight(s)| <= n {
      TrimEnd(s, n);
    } else {
      TrimPartDiffers(s, n);
    }
  }

  lemma TrimPartDiffers(s: string, n: nat)
    requires n < |TrimRight(s)|
    ensures TrimRight(s) <= s && Trim(s[..n]) != Trim(s)
  {
    var r := TrimRight(s);
    TrimRightStops(s);
    TrimEnd(s, |r|);
    TrimShorter(s[..|r|], n);
    assert s[..|r|][..n] == s[..n];
  }
}

/**
 The license provider: activation, deactivation and the periodic re-validation,
 each split where it releases the lock, and the writes to disk they owe.
 */
module LicenseProvider {
  import opened Basics
  import opened License

  datatype DiskWrite = Save(key: string) | Erase

  /** `checking` is the token the re-validation has read and not yet judged;
      `owed` are disk writes of calls that have already changed the memory. */
  datatype Provider = Provider(
    info: Info, raw: string, disk: Option<string>, checking: Option<string>, owed: multiset<DiskWrite>)

  datatype Step =
    | Activate(key: string, checkedAt: int, builtAt: int)
    | Deactivate
    | Land(write: DiskWrite)
    | CheckRead
    | CheckWrite(checkedAt: int, builtAt: int)

  datatype Env = Env(verifier: Verifier, instanceId: string)

  function Activated(env: Env, key: string, checkedAt: int, builtAt: int): Option<Info> {
    var c := Validate(env.verifier, key, checkedAt);
    if c.None? then None
    else
      var info := ClaimsToInfo(c.value, env.instanceId, builtAt);
      if info.valid then Some(info) else None
  }

  /** A token is activated exactly when the library accepts it, it names a paid
      edition and a license ID of the right form, and it has not run out since;
      what it installs is valid, open and tagged by the token. */
  lemma ActivatedIff(env: Env, key: string, checkedAt: int, builtAt: int)
    ensures var c := env.verifier.payload(key);
            Activated(env, key, checkedAt, builtAt).Some? <==>
            && env.verifier.accepted(key, checkedAt)
            && (c.edition == Business || c.edition == Enterprise)
            && "USN-" <= c.licenseId
            && !(c.expiresAt.Some? && c.expiresAt.value < builtAt)
    ensures Activated(env, key, checkedAt, builtAt).Some? ==>
              var info := Activated(env, key, checkedAt, builtAt).value;
              info.valid && Open(info) && InfoTag(info) == KeyTag(env, key)
  {
    var c := env.verifier.payload(key);
    if |c.licenseId| >= 4 {
      assert "USN-" <= c.licenseId <==> c.licenseId[..4] == "USN-";
    }
  }

  function Apply(env: Env, s: Provider, step: Step): Provider {
    match step
    case Activate(key, checkedAt, builtAt) =>
      var info := Activated(env, key, checkedAt, builtAt);
      if info.None? then s
      else s.(info := info.value, raw := key, owed := s.owed + multiset{Save(key)})
    case Deactivate => s.(info := OPEN_INFO, raw := "", owed := s.owed + multiset{Erase})
    case Land(w) =>
      if w in s.owed
      then s.(disk := if w.Save? then Some(w.key + "\n") else None, owed := s.owed - multiset{w})
      else s
    case CheckRead => if s.raw == "" || s.checking.Some? then s else s.(checking := Some(s.raw))
    case CheckWrite(checkedAt, builtAt) =>
      if s.checking.None? then s
      else
        var c := Validate(env.verifier, s.checking.value, checkedAt);
        s.(info := if c.None? then s.info.(valid := false) else ClaimsToInfo(c.value, env.instanceId, builtAt),
           checking := None)
  }

  function Run(env: Env, s: Provider, steps: seq<Step>): Provider {
    if steps == [] then s else Apply(env, Run(env, s, steps[..|steps| - 1]), steps[|steps| - 1])
  }

  /** A process that starts on the given disk. */
  function Boot(env: Env, disk: Option<string>, checkedAt: int, builtAt: int): Provider {
    var key := Load(disk);
    var info := if key == "" then None else Activated(env, key, checkedAt, builtAt);
    if info.None?
    then Provider(OPEN_INFO, "", disk, None, multiset{})
    else Provider(info.value, key, disk, None, multiset{})
  }

  // ------------------------------------------------------------------------
  // Every feature, no limit
  // ------------------------------------------------------------------------

  /** In every interleaving the installed features and limits are the open ones. */
  lemma {:induction false} AlwaysOpen(env: Env, s: Provider, steps: seq<Step>)
    requires Open(s.info)
    ensures Open(Run(env, s, steps).info)
  {
    if steps != [] {
      AlwaysOpen(env, s, steps[..|steps| - 1]);
    }
  }

  /** A re-validation of the pending token that does not end well. */
  predicate Refuses(env: Env, s: Provider, step: Step) {
    step.CheckWrite? && s.checking.Some? && Activated(env, s.checking.value, step.checkedAt, step.builtAt).None?
  }

  /** A successful activation or re-validation, or a deactivation. */
  predicate Restores(env: Env, s: Provider, step: Step) {
    match step
    case Activate(key, t, u) => Activated(env, key, t, u).Some?
    case Deactivate => true
    case CheckWrite(t, u) => s.checking.Some? && Activated(env, s.checking.value, t, u).Some?
    case _ => false
  }

  predicate RefusedAt(env: Env, s: Provider, steps: seq<Step>, i: nat) {
    i < |steps| && Refuses(env, Run(env, s, steps[..i]), steps[i])
  }

  predicate RestoredAt(env: Env, s: Provider, steps: seq<Step>, i: nat) {
    i < |steps| && Restores(env, Run(env, s, steps[..i]), steps[i])
  }

  /** Position `i` of the run is a refusal that nothing later makes good. */
  ghost predicate LastingRefusal(env: Env, s: Provider, steps: seq<Step>, i: nat) {
    RefusedAt(env, s, steps, i) && forall j: nat :: i < j < |steps| ==> !RestoredAt(env, s, steps, j)
  }

  /** A feature is reported off exactly when a re-validation of the run was refused
      and nothing has made that good since; then every feature is off, which the
      promise that nothing is ever downgraded does not mention. */
  lemma FeatureOffIffRefused(env: Env, s: Provider, steps: seq<Step>, f: Feature)
    requires Open(s.info) && s.info.valid && f in ALL_FEATURES
    ensures var info := Run(env, s, steps).info;
            !(info.valid && f in info.features) <==> exists i: nat :: LastingRefusal(env, s, steps, i)
  {
    AlwaysOpen(env, s, steps);
    ValidIffNotRefused(env, s, steps);
  }

  lemma {:induction false} ValidIffNotRefused(env: Env, s: Provider, steps: seq<Step>)
    requires s.info.valid
    ensures Run(env, s, steps).info.valid <==> !exists i: nat :: LastingRefusal(env, s, steps, i)
  {
    if steps != [] {
      var n := |steps| - 1;
      ValidIffNotRefused(env, s, steps[..n]);
      ValidAfter(env, Run(env, s, steps[..n]), steps[n]);
      LastingAfter(env, s, steps, n);
    }
  }

  lemma ValidAfter(env: Env, s: Provider, step: Step)
    ensures Apply(env, s, step).info.valid <==> Restores(env, s, step) || (s.info.valid && !Refuses(env, s, step))
    ensures !(Restores(env, s, step) && Refuses(env, s, step))
  {
  }

  lemma EarlierPosition(env: Env, s: Provider, steps: seq<Step>, n: nat, i: nat)
    requires i < n <= |steps|
    ensures RefusedAt(env, s, steps[..n], i) <==> RefusedAt(env, s, steps, i)
    ensures RestoredAt(env, s, steps[..n], i) <==> RestoredAt(env, s, steps, i)
  {
    assert steps[..n][..i] == steps[..i];
  }

  lemma LastingEarlier(env: Env, s: Provider, steps: seq<Step>, n: nat, i: nat)
    requires i < n == |steps| - 1
    ensures LastingRefusal(env, s, steps, i) <==>
            LastingRefusal(env, s, steps[..n], i) && !RestoredAt(env, s, steps, n)
  {
    EarlierPosition(env, s, steps, n, i);
    if LastingRefusal(env, s, steps, i) {
      forall j: nat | i < j < n
        ensures !RestoredAt(env, s, steps[..n], j)
      {
        EarlierPosition(env, s, steps, n, j);
      }
    }
    if LastingRefusal(env, s, steps[..n], i) && !RestoredAt(env, s, steps, n) {
      forall j: nat | i < j < |steps|
        ensures !RestoredAt(env, s, steps, j)
      {
        if j < n {
          EarlierPosition(env, s, steps, n, j);
        }
      }
    }
  }

  lemma LastingAfter(env: Env, s: Provider, steps: seq<Step>, n: nat)
    requires n == |steps| - 1
    ensures (exists i: nat :: LastingRefusal(env, s, steps, i)) <==>
            RefusedAt(env, s, steps, n)
            || (!RestoredAt(env, s, steps, n) && exists i: nat :: LastingRefusal(env, s, steps[..n], i))
  {
    if RefusedAt(env, s, steps, n) {
      assert LastingRefusal(env, s, steps, n);
    } else {
      forall i: nat
        ensures LastingRefusal(env, s, steps, i) <==>
                !RestoredAt(env, s, steps, n) && LastingRefusal(env, s, steps[..n], i)
      {
        if i < n {
          LastingEarlier(env, s, steps, n, i);
        }
      }
    }
  }

  /** The failure is reached from any start: a token is activated, later read by
      the re-validation and refused, and every feature is reported off. */
  lemma RefusalSwitchesOff(env: Env, disk: Option<string>, key: string, t: int, u: int, t': int, u': int)
    requires key != "" && Activated(env, key, t, u).Some? && Validate(env.verifier, key, t').None?
    ensures var s := Run(env, Boot(env, disk, t, u), [Activate(key, t, u), CheckRead, CheckWrite(t', u')]);
            s.raw == key && Open(s.info) && !s.info.valid && InfoTag(s.info) == KeyTag(env, key)
  {
    var s0 := Boot(env, disk, t, u);
    RunThree(env, s0, Activate(key, t, u), CheckRead, CheckWrite(t', u'));
    ActivatedIff(env, key, t, u);
  }

  lemma RunSnoc(env: Env, s: Provider, steps: seq<Step>, step: Step)
    ensures Run(env, s, steps + [step]) == Apply(env, Run(env, s, steps), step)
  {
    assert (steps + [step])[..|steps|] == steps;
  }

  lemma RunThree(env: Env, s: Provider, a: Step, b: Step, c: Step)
    ensures Run(env, s, [a, b, c]) == Apply(env, Apply(env, Apply(env, s, a), b), c)
  {
    RunTwo(env, s, a, b);
    RunSnoc(env, s, [a, b], c);
    assert [a, b] + [c] == [a, b, c];
  }

  lemma RunTwo(env: Env, s: Provider, a: Step, b: Step)
    ensures Run(env, s, [a, b]) == Apply(env, Apply(env, s, a), b)
  {
    RunSnoc(env, s, [], a);
    RunSnoc(env, s, [a], b);
    assert [] + [a] == [a];
    assert [a] + [b] == [a, b];
  }

  // ------------------------------------------------------------------------
  // Memory: the information belongs to the token
  // ------------------------------------------------------------------------

  datatype Tag = Tag(edition: Edition, licenseId: string, expiresAt: Option<int>, instanceId: string)

  function InfoTag(info: Info): Tag {
    Tag(info.edition, info.licenseId, info.expiresAt, info.instanceId)
  }

  function KeyTag(env: Env, key: string): Tag {
    var c := env.verifier.payload(key);
    Tag(c.edition, c.licenseId, c.expiresAt, env.instanceId)
  }

  ghost predicate Matches(env: Env, s: Provider) {
    if s.raw == "" then s.info == OPEN_INFO else InfoTag(s.info) == KeyTag(env, s.raw)
  }

  /** The verdict of a re-validation that read another token than the current one. */
  predicate Misjudges(env: Env, s: Provider, step: Step) {
    && step.CheckWrite? && s.checking.Some? && s.checking.value != s.raw
    && (s.raw == ""
        || (Validate(env.verifier, s.checking.value, step.checkedAt).Some?
            && KeyTag(env, s.checking.value) != KeyTag(env, s.raw)))
  }

  /** A step keeps the information in line with the token exactly when it is not
      such a verdict. */
  lemma MatchesKeptIff(env: Env, s: Provider, step: Step)
    requires WellFormed(env.verifier) && Matches(env, s) && s.checking != Some("")
    ensures Matches(env, Apply(env, s, step)) <==> !Misjudges(env, s, step)
  {
  }

  /** No activation or deactivation falls between the re-validation's read and its write. */
  ghost predicate Calm(env: Env, s: Provider, steps: seq<Step>) {
    forall k :: 0 <= k < |steps| && (steps[k].Activate? || steps[k].Deactivate?) ==>
      Run(env, s, steps[..k]).checking.None?
  }

  /** A pending re-validation concerns the current token. */
  ghost predicate Current(s: Provider) {
    s.checking.Some? ==> s.checking.value == s.raw && s.raw != ""
  }

  lemma CalmStep(env: Env, s: Provider, step: Step)
    requires WellFormed(env.verifier) && Matches(env, s) && Current(s)
    requires step.Activate? || step.Deactivate? ==> s.checking.None?
    ensures Matches(env, Apply(env, s, step)) && Current(Apply(env, s, step))
  {
    MatchesKeptIff(env, s, step);
  }

  /** In every such run the information is the valid community default without a
      token, and carries edition, license ID and expiry of the token otherwise. */
  lemma {:induction false} CalmRunMatches(env: Env, s: Provider, steps: seq<Step>)
    requires WellFormed(env.verifier) && Matches(env, s) && Current(s)
    requires Calm(env, s, steps)
    ensures Matches(env, Run(env, s, steps)) && Current(Run(env, s, steps))
  {
    if steps != [] {
      var n := |steps| - 1;
      var init := steps[..n];
      assert Calm(env, s, init) by {
        assert forall k :: 0 <= k < n ==> init[..k] == steps[..k] && init[k] == steps[k];
      }
      CalmRunMatches(env, s, init);
      CalmStep(env, Run(env, s, init), steps[n]);
    }
  }

  lemma BootMatches(env: Env, disk: Option<string>, t: int, u: int)
    ensures Matches(env, Boot(env, disk, t, u)) && Open(Boot(env, disk, t, u).info)
  {
  }

  /** A deactivation during a failing re-validation leaves the community default
      marked invalid, and nothing but a further activation or deactivation repairs it. */
  lemma InvalidDefaultPersists(env: Env, s: Provider, t: int, u: int, steps: seq<Step>)
    requires s.checking.Some? && Validate(env.verifier, s.checking.value, t).None?
    requires forall i :: 0 <= i < |steps| ==> !steps[i].Activate? && !steps[i].Deactivate?
    ensures var s' := Run(env, Apply(env, Apply(env, s, Deactivate), CheckWrite(t, u)), steps);
            s'.raw == "" && s'.info == OPEN_INFO.(valid := false)
  {
    InvalidDefaultMade(env, s, t, u);
    IdleMemory(env, Apply(env, Apply(env, s, Deactivate), CheckWrite(t, u)), steps);
  }

  lemma InvalidDefaultMade(env: Env, s: Provider, t: int, u: int)
    requires s.checking.Some? && Validate(env.verifier, s.checking.value, t).None?
    ensures var s' := Apply(env, Apply(env, s, Deactivate), CheckWrite(t, u));
            s'.checking.None? && s'.raw == "" && s'.info == OPEN_INFO.(valid := false)
  {
    var s1 := Apply(env, s, Deactivate);
    assert s1.checking == s.checking && s1.info == OPEN_INFO;
  }

  lemma {:induction false} IdleMemory(env: Env, s: Provider, steps: seq<Step>)
    requires s.raw == "" && s.checking.None?
    requires forall i :: 0 <= i < |steps| ==> !steps[i].Activate? && !steps[i].Deactivate?
    ensures var s' := Run(env, s, steps); s'.raw == "" && s'.checking.None? && s'.info == s.info
  {
    if steps != [] {
      IdleMemory(env, s, steps[..|steps| - 1]);
    }
  }

  /** And that state is reached from any start. */
  lemma InvalidDefaultReached(env: Env, disk: Option<string>, key: string, t: int, u: int, t': int, u': int,
                              steps: seq<Step>)
    requires key != "" && Activated(env, key, t, u).Some? && Validate(env.verifier, key, t').None?
    requires forall i :: 0 <= i < |steps| ==> !steps[i].Activate? && !steps[i].Deactivate?
    ensures var calls := [Activate(key, t, u), CheckRead, Deactivate] + [CheckWrite(t', u')];
            var s := Run(env, Boot(env, disk, t, u), calls + steps);
            s.raw == "" && s.info == OPEN_INFO.(valid := false)
  {
    var s0 := Boot(env, disk, t, u);
    RunThree(env, s0, Activate(key, t, u), CheckRead, Deactivate);
    var first := [Activate(key, t, u), CheckRead, Deactivate];
    RunAppend(env, s0, first, [CheckWrite(t', u')]);
    assert [CheckWrite(t', u')][..0] == [];
    RunAppend(env, s0, first + [CheckWrite(t', u')], steps);
    var s2 := Apply(env, Apply(env, s0, Activate(key, t, u)), CheckRead);
    InvalidDefaultPersists(env, s2, t', u', steps);
  }

  lemma {:induction false} RunAppend(env: Env, s: Provider, a: seq<Step>, b: seq<Step>)
    ensures Run(env, s, a + b) == Run(env, Run(env, s, a), b)
  {
    if b == [] {
      assert a + b == a;
    } else {
      RunAppend(env, s, a, b[..|b| - 1]);
      assert (a + b)[..|a + b| - 1] == a + b[..|b| - 1];
    }
  }

  // ------------------------------------------------------------------------
  // Disk: a restart finds the same license
  // ------------------------------------------------------------------------

  /** Calls do not overlap: each starts after the disk write of the previous one. */
  ghost predicate OneCallAtATime(env: Env, s: Provider, steps: seq<Step>) {
    forall k :: 0 <= k < |steps| && (steps[k].Activate? || steps[k].Deactivate?) ==>
      Run(env, s, steps[..k]).owed == multiset{}
  }

  ghost predicate DiskFollows(s: Provider) {
    || (s.owed == multiset{} && Load(s.disk) == Trim(s.raw))
    || (s.owed == multiset{Save(s.raw)})
    || (s.owed == multiset{Erase} && s.raw == "")
  }

  /** The token a restart finds after the write. */
  function TextOf(w: DiskWrite): string {
    if w.Save? then Trim(w.key) else ""
  }

  lemma LandedText(env: Env, s: Provider, w: DiskWrite)
    requires w in s.owed
    ensures var s' := Apply(env, s, Land(w));
            Load(s'.disk) == TextOf(w) && s'.raw == s.raw && s'.info == s.info && s'.owed == s.owed - multiset{w}
  {
    if w.Save? {
      assert w.key + "\n" == w.key + ['\n'];
      TrimTrailing(w.key, '\n');
    }
  }

  lemma DiskStep(env: Env, s: Provider, step: Step)
    requires DiskFollows(s)
    requires step.Activate? || step.Deactivate? ==> s.owed == multiset{}
    ensures DiskFollows(Apply(env, s, step))
  {
    if step.Land? && step.write in s.owed {
      LandedText(env, s, step.write);
      assert s.owed - multiset{step.write} == multiset{};
    }
  }

  lemma {:induction false} DiskFollowsMemory(env: Env, s: Provider, steps: seq<Step>)
    requires DiskFollows(s) && OneCallAtATime(env, s, steps)
    ensures DiskFollows(Run(env, s, steps))
  {
    if steps != [] {
      var n := |steps| - 1;
      var init := steps[..n];
      assert OneCallAtATime(env, s, init) by {
        assert forall k :: 0 <= k < n ==> init[..k] == steps[..k] && init[k] == steps[k];
      }
      DiskFollowsMemory(env, s, init);
      DiskStep(env, Run(env, s, init), steps[n]);
    }
  }

  /** A boot succeeds on its disk: empty, or holding a token it activates. */
  predicate CleanBoot(env: Env, disk: Option<string>, t: int, u: int) {
    Load(disk) == "" || Activated(env, Load(disk), t, u).Some?
  }

  /** After any calls made one at a time, once their writes have landed the text
      on disk trims to the trimmed token in memory; to the token itself exactly
      when the token carries no surrounding white space. */
  lemma StoredTextTrimsToToken(env: Env, disk: Option<string>, t: int, u: int, steps: seq<Step>)
    requires CleanBoot(env, disk, t, u)
    requires OneCallAtATime(env, Boot(env, disk, t, u), steps)
    requires Run(env, Boot(env, disk, t, u), steps).owed == multiset{}
    ensures var s := Run(env, Boot(env, disk, t, u), steps);
            Load(s.disk) == Trim(s.raw) && (Load(s.disk) == s.raw <==> Trimmed(s.raw))
  {
    var s0 := Boot(env, disk, t, u);
    assert Load(disk) == Trim(Load(disk)) by {
      if disk.Some? {
        TrimIsTrimmed(disk.value);
        TrimIsTrimmed(Trim(disk.value));
      }
    }
    DiskFollowsMemory(env, s0, steps);
    TrimIsTrimmed(Run(env, s0, steps).raw);
  }

  /** Restart round trip: a fresh process on that disk runs on the trimmed token,
      with that token's edition, license ID and expiry, while it activates, and on
      the community default otherwise. */
  lemma RestartRoundTrip(env: Env, disk: Option<string>, t: int, u: int, steps: seq<Step>, t': int, u': int)
    requires CleanBoot(env, disk, t, u)
    requires OneCallAtATime(env, Boot(env, disk, t, u), steps)
    requires Run(env, Boot(env, disk, t, u), steps).owed == multiset{}
    ensures var key := Trim(Run(env, Boot(env, disk, t, u), steps).raw);
            var r := Boot(env, Run(env, Boot(env, disk, t, u), steps).disk, t', u');
            if key != "" && Activated(env, key, t', u').Some?
            then r.raw == key && InfoTag(r.info) == KeyTag(env, key) && r.info.valid
            else r.raw == "" && r.info == OPEN_INFO
  {
    StoredTextTrimsToToken(env, disk, t, u, steps);
    var key := Trim(Run(env, Boot(env, disk, t, u), steps).raw);
    ActivatedIff(env, key, t', u');
  }

  /** In calm runs the fresh process carries the very edition, license ID and
      expiry of the running one exactly when the trimmed token says the same as
      the token, in particular for every token without surrounding white space. */
  lemma RestartKeepsLicense(env: Env, disk: Option<string>, t: int, u: int, steps: seq<Step>, t': int, u': int)
    requires WellFormed(env.verifier) && CleanBoot(env, disk, t, u)
    requires OneCallAtATime(env, Boot(env, disk, t, u), steps) && Calm(env, Boot(env, disk, t, u), steps)
    requires Run(env, Boot(env, disk, t, u), steps).owed == multiset{}
    requires var key := Trim(Run(env, Boot(env, disk, t, u), steps).raw);
             key != "" && Activated(env, key, t', u').Some?
    ensures var s := Run(env, Boot(env, disk, t, u), steps);
            var r := Boot(env, s.disk, t', u');
            && (InfoTag(r.info) == InfoTag(s.info) <==> KeyTag(env, Trim(s.raw)) == KeyTag(env, s.raw))
            && (Trimmed(s.raw) ==> r.raw == s.raw && InfoTag(r.info) == InfoTag(s.info))
  {
    RestartRoundTrip(env, disk, t, u, steps, t', u');
    BootMatches(env, disk, t, u);
    CalmRunMatches(env, Boot(env, disk, t, u), steps);
    TrimIsTrimmed(Run(env, Boot(env, disk, t, u), steps).raw);
  }

  /** A write that fails half-way replaces the stored license all the same: the
      next start runs on the token exactly when what was written reaches to its last
      character other than white space. */
  lemma TornSaveKeepsLicenseIff(env: Env, file: Option<string>, key: string, n: nat, t: int, u: int)
    requires Trim(key) != "" && Activated(env, Trim(key), t, u).Some?
    ensures Boot(env, AfterSave(file, key, Torn(n)), t, u).raw == Trim(key) <==> |TrimRight(key)| <= n
    ensures n == 0 ==> Boot(env, AfterSave(file, key, Torn(n)), t, u).info == OPEN_INFO
  {
    var text := key + "\n";
    assert text == key + ['\n'] && text[..|key|] == key;
    TrimTrailing(key, '\n');
    TrimRightStops(key);
    var m := if n < |text| then n else |text|;
    TrimPartIff(text, m);
  }

  // ------------------------------------------------------------------------
  // Overlapping calls
  // ------------------------------------------------------------------------

  /** The write a call owes the disk, if it changes the memory. */
  function Owes(env: Env, call: Step): Option<DiskWrite> {
    match call
    case Activate(key, t, u) => if Activated(env, key, t, u).Some? then Some(Save(key)) else None
    case Deactivate => Some(Erase)
    case _ => None
  }

  ghost predicate Settled(s: Provider) {
    s.owed == multiset{} && Load(s.disk) == Trim(s.raw)
  }

  /** A call made while the write `w` is outstanding: if its own write lands first,
      the disk ends with the older text, if last, with its own. */
  lemma OverlapLands(env: Env, s: Provider, w: DiskWrite, call: Step)
    requires s.owed == multiset{w} && Owes(env, call).Some?
    ensures var own := Owes(env, call).value;
            var early := Run(env, s, [call, Land(own), Land(w)]);
            var late := Run(env, s, [call, Land(w), Land(own)]);
            && Trim(early.raw) == TextOf(own) && early.owed == multiset{} && Load(early.disk) == TextOf(w)
            && Settled(late) && late.raw == early.raw
  {
    var own := Owes(env, call).value;
    CallOwes(env, s, call);
    assert multiset{w} + multiset{own} == multiset{own, w} == multiset{w, own};
    BothLand(env, s, call, own, w);
    BothLand(env, s, call, w, own);
  }

  lemma CallOwes(env: Env, s: Provider, call: Step)
    requires Owes(env, call).Some?
    ensures var s' := Apply(env, s, call);
            s'.owed == s.owed + multiset{Owes(env, call).value} && Trim(s'.raw) == TextOf(Owes(env, call).value)
  {
  }

  lemma BothLand(env: Env, s: Provider, call: Step, first: DiskWrite, second: DiskWrite)
    requires Apply(env, s, call).owed == multiset{first, second}
    ensures var s' := Run(env, s, [call, Land(first), Land(second)]);
            s'.owed == multiset{} && s'.raw == Apply(env, s, call).raw && Load(s'.disk) == TextOf(second)
  {
    RunThree(env, s, call, Land(first), Land(second));
    var s1 := Apply(env, s, call);
    LandedText(env, s1, first);
    var mid := Apply(env, s1, Land(first));
    assert mid.owed == multiset{second};
    LandedText(env, mid, second);
    assert multiset{second} - multiset{second} == multiset{};
  }

  /** From any state that owes a write, a further call can be completed so that the
      disk ends with that older write. */
  lemma OverlapCanDisagree(env: Env, s: Provider, w: DiskWrite, call: Step) returns (rest: seq<Step>)
    requires w in s.owed && Owes(env, call).Some? && TextOf(Owes(env, call).value) != TextOf(w)
    ensures var s' := Run(env, s, [call] + rest);
            s'.owed == multiset{} && Load(s'.disk) == TextOf(w) && Load(s'.disk) != Trim(s'.raw)
  {
    CallOwes(env, s, call);
    rest := LandLast(env, Apply(env, s, call), w);
    RunSnoc(env, s, [], call);
    assert [] + [call] == [call];
    RunAppend(env, s, [call], rest);
  }

  /** Lands every outstanding write, `w` last. */
  lemma {:induction false} LandLast(env: Env, s: Provider, w: DiskWrite) returns (landings: seq<Step>)
    requires w in s.owed
    ensures var s' := Run(env, s, landings);
            s'.owed == multiset{} && s'.raw == s.raw && Load(s'.disk) == TextOf(w)
    decreases |s.owed|
  {
    if s.owed == multiset{w} {
      LandOne(env, s, w);
      landings := [Land(w)];
    } else {
      var v := AnotherWrite(s.owed, w);
      LandOne(env, s, v);
      var rest := LandLast(env, Apply(env, s, Land(v)), w);
      RunAppend(env, s, [Land(v)], rest);
      landings := [Land(v)] + rest;
    }
  }

  lemma LandOne(env: Env, s: Provider, w: DiskWrite)
    requires w in s.owed
    ensures Run(env, s, [Land(w)]) == Apply(env, s, Land(w))
    ensures var s' := Apply(env, s, Land(w));
            Load(s'.disk) == TextOf(w) && s'.raw == s.raw && s'.owed == s.owed - multiset{w}
  {
    RunSnoc(env, s, [], Land(w));
    assert [] + [Land(w)] == [Land(w)];
    LandedText(env, s, w);
  }

  lemma AnotherWrite(owed: multiset<DiskWrite>, w: DiskWrite) returns (v: DiskWrite)
    requires w in owed && owed != multiset{w}
    ensures v in owed && w in owed - multiset{v} && |owed - multiset{v}| < |owed|
  {
    var others := owed - multiset{w};
    assert owed == others + multiset{w};
    v :| v in others;
  }

  /** Calls one at a time are needed at every state: a call made while a write is
      outstanding settles with disk and memory in agreement in both orders of
      landing exactly when the two writes store the same text. */
  lemma OverlapSettlesIff(env: Env, s: Provider, w: DiskWrite, call: Step)
    requires s.owed == multiset{w} && Owes(env, call).Some?
    ensures var own := Owes(env, call).value;
            Settled(Run(env, s, [call, Land(own), Land(w)])) && Settled(Run(env, s, [call, Land(w), Land(own)]))
            <==> TextOf(own) == TextOf(w)
  {
    OverlapLands(env, s, w, call);
  }

  /** In particular a deactivation overlapping an activation can bring the license
      back at the next start. */
  lemma OverlapRevivesLicense(env: Env, s: Provider, key: string, t: int, u: int)
    requires s.owed == multiset{Save(key)} && Trim(key) != "" && Activated(env, Trim(key), t, u).Some?
    ensures var s' := Run(env, s, [Deactivate, Land(Erase), Land(Save(key))]);
            s'.raw == "" && s'.info == OPEN_INFO && Boot(env, s'.disk, t, u).raw == Trim(key)
  {
    OverlapLands(env, s, Save(key), Deactivate);
    RunThree(env, s, Deactivate, Land(Erase), Land(Save(key)));
  }
}

/** The provider and its store as objects; each method is one uninterrupted call. */
module LicenseObjects {
  import opened Basics
  import opened License
  import opened LicenseProvider

  class Store {
    var file: Option<string>

    constructor (file: Option<string>)
      ensures this.file == file
    {
      this.file := file;
    }

    method SaveKey(key: string, w: Writing) returns (ok: bool)
      modifies this
      ensures ok == w.Written?
      ensures file == AfterSave(old(file), key, w)
      ensures ok ==> file == Some(key + "\n") && Load(file) == Trim(key)
      ensures w.Refused? ==> file == old(file)
      ensures w.Torn? ==>
                file.Some? && file.value <= key + "\n" && (|file.value| == w.count || file.value == key + "\n")
    {
      var text := key + "\n";
      match w {
        case Written =>
          file := Some(text);
          assert text == key + ['\n'];
          TrimTrailing(key, '\n');
        case Refused =>
        case Torn(n) =>
          file := Some(text[..if n < |text| then n else |text|]);
      }
      ok := w.Written?;
    }

    method LoadKey() returns (key: string)
      ensures key == Load(file)
      ensures Trimmed(key)
    {
      if file.None? {
        return "";
      }
      key := Trim(file.value);
      TrimIsTrimmed(file.value);
    }

    method Remove(writable: bool) returns (ok: bool)
      modifies this
      ensures ok == (writable || old(file).None?)
      ensures file == if ok then None else old(file)
    {
      if file.None? {
        return true;
      }
      if writable {
        file := None;
      }
      ok := writable;
    }
  }

  class LicenseHolder {
    const env: Env
    const store: Store
    var info: Info
    var rawJwt: string
    var checking: Option<string>

    ghost function State(): Provider
      reads this, store
    {
      Provider(info, rawJwt, store.file, checking, multiset{})
    }

    constructor (env: Env, store: Store, checkedAt: int, builtAt: int)
      ensures this.env == env && this.store == store
      ensures State() == Boot(env, store.file, checkedAt, builtAt)
    {
      this.env := env;
      this.store := store;
      info, rawJwt, checking := OPEN_INFO, "", None;
      new;
      var key := store.LoadKey();
      if key != "" {
        var _ := ActivateInMemory(key, checkedAt, builtAt);
      }
    }

    method ActivateInMemory(key: string, checkedAt: int, builtAt: int) returns (ok: bool)
      modifies this`info, this`rawJwt
      ensures ok == Activated(env, key, checkedAt, builtAt).Some?
      ensures ok ==> rawJwt == key && info == Activated(env, key, checkedAt, builtAt).value
      ensures !ok ==> rawJwt == old(rawJwt) && info == old(info)
    {
      var claims := Validate(env.verifier, key, checkedAt);
      if claims.None? {
        return false;
      }
      var built := ClaimsToInfo(claims.value, env.instanceId, builtAt);
      if !built.valid {
        return false;
      }
      info, rawJwt := built, key;
      ok := true;
    }

    /** A failed write to disk does not fail the activation, whatever it leaves. */
    method ActivateKey(key: string, checkedAt: int, builtAt: int, w: Writing) returns (ok: bool)
      modifies this, store
      ensures ok == Activated(env, key, checkedAt, builtAt).Some? && checking == old(checking)
      ensures w.Written? ==> State() == Run(env, old(State()), [Activate(key, checkedAt, builtAt), Land(Save(key))])
      ensures var file := if ok then AfterSave(old(store.file), key, w) else old(store.file);
              State() == Apply(env, old(State()), Activate(key, checkedAt, builtAt)).(disk := file, owed := multiset{})
    {
      ghost var s0 := State();
      ok := ActivateInMemory(key, checkedAt, builtAt);
      if ok {
        var _ := store.SaveKey(key, w);
      }
      assert [Activate(key, checkedAt, builtAt), Land(Save(key))][..1] == [Activate(key, checkedAt, builtAt)];
      assert Run(env, s0, [Activate(key, checkedAt, builtAt)]) == Apply(env, s0, Activate(key, checkedAt, builtAt));
    }

    method DeactivateKey(writable: bool) returns (ok: bool)
      modifies this, store
      ensures rawJwt == "" && info == OPEN_INFO && checking == old(checking)
      ensures ok ==> State() == Run(env, old(State()), [Deactivate, Land(Erase)])
      ensures !ok ==> store.file == old(store.file) && store.file.Some?
    {
      ghost var s0 := State();
      info, rawJwt := OPEN_INFO, "";
      ok := store.Remove(writable);
      assert [Deactivate, Land(Erase)][..1] == [Deactivate];
      assert Run(env, s0, [Deactivate]) == Apply(env, s0, Deactivate);
    }

    method BeginCheck()
      requires checking.None?
      modifies this`checking
      ensures State() == Apply(env, old(State()), CheckRead)
    {
      if rawJwt != "" {
        checking := Some(rawJwt);
      }
    }

    method FinishCheck(checkedAt: int, builtAt: int)
      requires checking.Some?
      modifies this`info, this`checking
      ensures State() == Apply(env, old(State()), CheckWrite(checkedAt, builtAt))
    {
      var claims := Validate(env.verifier, checking.value, checkedAt);
      if claims.None? {
        info := info.(valid := false);
      } else {
        info := ClaimsToInfo(claims.value, env.instanceId, builtAt);
      }
      checking := None;
    }
  }
}
