/**
 Subjects of the message bus.  A subject is a list of tokens separated by dots; in
 a subscription the token `*` stands for any one token and a final `>` for one or
 more.  Agent IDs become tokens of subjects as they are, so an ID is a pattern too.
 */
module Subjects {
  import opened Basics

  function Dotted(token: string, rest: string): string {
    token + "." + rest
  }

  /** `usulnet.commands.` and the ID. */
  function CommandSubject(id: AgentId): string {
    Dotted("usulnet", Dotted("commands", id))
  }

  function Topic(name: string): string {
    Dotted("usulnet", name)
  }

  const BROADCAST := Topic("broadcast")

  /** Where agents publish for the gateway: `kind` is "heartbeat" or "deregister". */
  function GatewaySubject(kind: string, id: AgentId): string {
    Dotted("usulnet", Dotted("agent", Dotted(kind, id)))
  }

  function Split(s: string): (tokens: seq<string>)
    ensures tokens != []
  {
    if s == "" then [""]
    else
      var rest := Split(s[1..]);
      if s[0] == '.' then [""] + rest else [[s[0]] + rest[0]] + rest[1..]
  }

  predicate Matches(pattern: seq<string>, subject: seq<string>) {
    if pattern == [] then subject == []
    else if pattern == [">"] then subject != []
    else subject != [] && (pattern[0] == "*" || pattern[0] == subject[0]) && Matches(pattern[1..], subject[1..])
  }

  predicate Blank(c: char) {
    c in " \t\r\n"
  }

  predicate Legible(token: string) {
    token != "" && forall c :: c in token ==> !Blank(c)
  }

  predicate AllLegible(tokens: seq<string>) {
    forall i :: 0 <= i < |tokens| ==> Legible(tokens[i])
  }

  predicate TailOnly(tokens: seq<string>) {
    forall i :: 0 <= i < |tokens| - 1 ==> tokens[i] != ">"
  }

  /** Other subjects carry no messages. */
  predicate Publishable(subject: string) {
    AllLegible(Split(subject))
  }

  /** Other subscriptions are refused. */
  predicate Subscribable(pattern: string) {
    AllLegible(Split(pattern)) && TailOnly(Split(pattern))
  }

  /** A subscription to `pattern` receives what is published on `subject`. */
  predicate Hears(pattern: string, subject: string) {
    Publishable(subject) && Matches(Split(pattern), Split(subject))
  }

  // ------------------------------------------------------------------------
  // Tokens
  // ------------------------------------------------------------------------

  lemma {:induction false} SplitDot(token: string, s: string)
    requires '.' !in token
    ensures Split(Dotted(token, s)) == [token] + Split(s)
  {
    if token == "" {
      assert Dotted(token, s)[1..] == s;
    } else {
      SplitDot(token[1..], s);
      assert Dotted(token, s)[1..] == Dotted(token[1..], s);
      assert [token[0]] + token[1..] == token;
    }
  }

  /** A text without dots is a single token, and only such a text. */
  lemma {:induction false} SplitSingle(s: string)
    ensures |Split(s)| == 1 <==> '.' !in s
    ensures '.' !in s ==> Split(s) == [s]
  {
    if s != "" {
      SplitSingle(s[1..]);
      assert [s[0]] + s[1..] == s;
    }
  }

  lemma {:induction false} SplitInjective(a: string, b: string)
    requires Split(a) == Split(b)
    ensures a == b
  {
    if a != "" && b != "" {
      var x, y := Split(a[1..]), Split(b[1..]);
      if a[0] == '.' && b[0] == '.' {
        assert x == Split(a)[1..] && y == Split(b)[1..];
      } else if a[0] != '.' && b[0] != '.' {
        assert Split(a)[0][1..] == x[0] && Split(b)[0][1..] == y[0];
        assert Split(a)[1..] == x[1..] && Split(b)[1..] == y[1..];
        assert x == [x[0]] + x[1..] && y == [y[0]] + y[1..];
      }
      SplitInjective(a[1..], b[1..]);
      assert a == [a[0]] + a[1..] && b == [b[0]] + b[1..];
    }
  }

  lemma {:induction false} MatchesItself(tokens: seq<string>)
    ensures Matches(tokens, tokens)
  {
    if tokens != [] {
      MatchesItself(tokens[1..]);
    }
  }

  predicate Literal(tokens: seq<string>) {
    "*" !in tokens && ">" !in tokens
  }

  lemma {:induction false} LiteralMatches(pattern: seq<string>, subject: seq<string>)
    requires Literal(pattern)
    ensures Matches(pattern, subject) <==> pattern == subject
  {
    if pattern != [] && subject != [] {
      LiteralMatches(pattern[1..], subject[1..]);
      assert pattern == [pattern[0]] + pattern[1..] && subject == [subject[0]] + subject[1..];
    }
  }

  predicate StandsFor(token: string, other: string) {
    token == "*" || token == other
  }

  /** Token by token: every token stands for itself, `*` for any one token, and a
      final `>` for one or more. */
  lemma {:induction false} MatchesIff(pattern: seq<string>, subject: seq<string>)
    requires TailOnly(pattern)
    ensures Matches(pattern, subject) <==>
            var open := pattern != [] && pattern[|pattern| - 1] == ">";
            var fixed := if open then |pattern| - 1 else |pattern|;
            && (if open then |pattern| <= |subject| else |pattern| == |subject|)
            && forall i :: 0 <= i < fixed && i < |subject| ==> StandsFor(pattern[i], subject[i])
  {
    if pattern != [] && pattern != [">"] && subject != [] {
      var p, s := pattern[1..], subject[1..];
      assert forall i :: 0 <= i < |p| ==> p[i] == pattern[i + 1];
      assert forall i :: 0 <= i < |s| ==> s[i] == subject[i + 1];
      assert forall i :: 1 <= i < |pattern| ==> pattern[i] == p[i - 1];
      assert forall i :: 1 <= i < |subject| ==> subject[i] == s[i - 1];
      MatchesIff(p, s);
      if |pattern| == 1 {
        assert pattern == [pattern[0]] && pattern[0] != ">";
      }
    }
  }

  /** Neither a blank, nor two dots in a row, nor a dot at the end. */
  ghost predicate Clean(s: string) {
    && (forall i :: 0 <= i < |s| ==> !Blank(s[i]))
    && (forall i :: 0 <= i < |s| - 1 ==> s[i] != '.' || s[i + 1] != '.')
    && (s == "" || s[|s| - 1] != '.')
  }

  lemma {:induction false} CleanIff(s: string)
    ensures var ts := Split(s);
            && (Clean(s) <==> (forall c :: c in ts[0] ==> !Blank(c)) && AllLegible(ts[1..]))
            && (ts[0] == "" <==> s == "" || s[0] == '.')
  {
    if s != "" {
      var r := Split(s[1..]);
      CleanIff(s[1..]);
      CleanCons(s);
      if s[0] == '.' {
        assert Split(s)[1..] == r;
        LegibleCons(r);
      } else {
        assert Split(s)[1..] == r[1..] && Split(s)[0] == [s[0]] + r[0];
        assert forall c :: c in Split(s)[0] <==> c == s[0] || c in r[0];
      }
    }
  }

  lemma CleanCons(s: string)
    requires s != ""
    ensures Clean(s) <==> !Blank(s[0]) && Clean(s[1..]) && (s[0] == '.' ==> s[1..] != "" && s[1] != '.')
  {
    var r := s[1..];
    assert forall i :: 0 <= i < |r| ==> r[i] == s[i + 1];
    assert forall i :: 1 <= i < |s| ==> s[i] == r[i - 1];
    if Clean(s) {
      forall i | 0 <= i < |r| - 1
        ensures r[i] != '.' || r[i + 1] != '.'
      {
        assert s[i + 1] != '.' || s[i + 1 + 1] != '.';
      }
    }
    if !Blank(s[0]) && Clean(r) && (s[0] == '.' ==> r != "" && s[1] != '.') {
      forall i | 0 <= i < |s| - 1
        ensures s[i] != '.' || s[i + 1] != '.'
      {
        if i > 0 {
          assert s[i] == r[i - 1] && s[i + 1] == r[i - 1 + 1];
        }
      }
    }
  }

  lemma LegibleCons(ts: seq<string>)
    requires ts != []
    ensures AllLegible(ts) <==> Legible(ts[0]) && AllLegible(ts[1..])
  {
    assert forall i :: 1 <= i < |ts| ==> ts[i] == ts[1..][i - 1];
  }

  /** Which texts are subjects: not empty, without blanks, and every dot between
      two other characters. */
  lemma PublishableIff(s: string)
    ensures Publishable(s) <==> s != "" && s[0] != '.' && Clean(s)
  {
    CleanIff(s);
    LegibleCons(Split(s));
  }

  /** `>` is refused before the end of a subscription. */
  lemma SubscribableIff(token: string, rest: string)
    requires '.' !in token
    ensures Subscribable(Dotted(token, rest)) <==> Legible(token) && token != ">" && Subscribable(rest)
  {
    SplitDot(token, rest);
    var ts := Split(Dotted(token, rest));
    LegibleCons(ts);
    assert ts[1..] == Split(rest);
    assert forall i :: 1 <= i < |ts| ==> ts[i] == Split(rest)[i - 1];
    assert forall i :: 0 <= i < |Split(rest)| ==> ts[i + 1] == Split(rest)[i];
  }

  // ------------------------------------------------------------------------
  // Agent IDs in subjects
  // ------------------------------------------------------------------------

  lemma CommandTokens(id: AgentId)
    ensures Split(CommandSubject(id)) == ["usulnet", "commands"] + Split(id)
  {
    SplitDot("usulnet", Dotted("commands", id));
    SplitDot("commands", id);
  }

  /** The subjects as they are spelled. */
  lemma Spelled(id: AgentId)
    ensures CommandSubject(id) == "usulnet.commands." + id
    ensures GatewaySubject("heartbeat", id) == "usulnet.agent.heartbeat." + id
    ensures GatewaySubject("deregister", id) == "usulnet.agent.deregister." + id
    ensures BROADCAST == "usulnet.broadcast"
  {
    assert "usulnet" + "." + ("commands" + "." + id) == "usulnet.commands." + id;
    assert "usulnet" + "." + ("agent" + "." + ("heartbeat" + "." + id)) == "usulnet.agent.heartbeat." + id;
    assert "usulnet" + "." + ("agent" + "." + ("deregister" + "." + id)) == "usulnet.agent.deregister." + id;
    assert "usulnet" + "." + "broadcast" == "usulnet.broadcast";
  }

  lemma LegiblePrefix(tokens: seq<string>)
    ensures AllLegible(["usulnet", "commands"] + tokens) <==> AllLegible(tokens)
    ensures tokens != [] ==> (TailOnly(["usulnet", "commands"] + tokens) <==> TailOnly(tokens))
  {
    var all := ["usulnet", "commands"] + tokens;
    assert forall i :: 0 <= i < |tokens| ==> all[i + 2] == tokens[i];
    assert forall i :: 2 <= i < |all| ==> all[i] == tokens[i - 2];
  }

  /** The prefix of the command subjects plays no part in who hears whom. */
  lemma CommandHeard(listener: AgentId, addressee: AgentId)
    ensures Hears(CommandSubject(listener), CommandSubject(addressee)) <==> Hears(listener, addressee)
    ensures Subscribable(CommandSubject(listener)) <==> Subscribable(listener)
  {
    CommandTokens(listener);
    CommandTokens(addressee);
    LegiblePrefix(Split(addressee));
    LegiblePrefix(Split(listener));
    var p, s := Split(CommandSubject(listener)), Split(CommandSubject(addressee));
    assert p[1..][1..] == Split(listener) && s[1..][1..] == Split(addressee);
    assert p[1..][0] == "commands" && s[1..][0] == "commands";
    assert Matches(p, s) == Matches(p[1..], s[1..]) == Matches(Split(listener), Split(addressee));
  }

  /** The subscription to another topic hears no command. */
  lemma OtherTopic(name: string, id: AgentId)
    requires '.' !in name && name != "commands" && name != "*" && name != ">"
    ensures !Hears(Topic(name), CommandSubject(id))
  {
    SplitDot("usulnet", name);
    SplitSingle(name);
    CommandTokens(id);
    var p, s := Split(Topic(name)), Split(CommandSubject(id));
    assert p[1..] == [name] && s[1..][0] == "commands" && p[1..] != [">"] by {
      assert [name][0] != [">"][0];
    }
    assert !Matches(p[1..], s[1..]);
  }

  /** An agent hears the commands for its own ID. */
  lemma HearsItself(id: AgentId)
    requires Subscribable(id)
    ensures Hears(id, id)
  {
    MatchesItself(Split(id));
  }

  /** An ID without wildcard tokens hears nothing else. */
  lemma LiteralHearsItself(listener: AgentId, addressee: AgentId)
    requires Literal(Split(listener))
    ensures Hears(listener, addressee) <==> listener == addressee && Publishable(addressee)
  {
    LiteralMatches(Split(listener), Split(addressee));
    if Split(listener) == Split(addressee) {
      SplitInjective(listener, addressee);
    }
  }

  /** The ID `*` hears the commands for every ID without a dot, the ID `>` those for
      every ID. */
  lemma WildcardHears(addressee: AgentId)
    ensures Hears("*", addressee) <==> Publishable(addressee) && '.' !in addressee
    ensures Hears(">", addressee) <==> Publishable(addressee)
    ensures Subscribable("*") && Subscribable(">")
  {
    SplitSingle("*");
    SplitSingle(">");
    SplitSingle(addressee);
    var s := Split(addressee);
    assert Matches(["*"], s) <==> |s| == 1 by {
      assert ["*"][1..] == [];
    }
    assert Legible("*") && Legible(">");
  }

  /** The gateway listens with `*` in place of the ID. */
  predicate HeardByGateway(kind: string, id: AgentId) {
    Hears(GatewaySubject(kind, "*"), GatewaySubject(kind, id))
  }

  lemma {:induction false} PrefixedTokens(prefix: seq<string>, id: AgentId)
    requires forall i :: 0 <= i < |prefix| ==> Legible(prefix[i]) && prefix[i] != "*" && prefix[i] != ">"
    ensures Matches(prefix + ["*"], prefix + Split(id)) <==> '.' !in id
    ensures AllLegible(prefix + Split(id)) <==> Publishable(id)
  {
    var all := prefix + Split(id);
    assert forall i :: 0 <= i < |Split(id)| ==> all[i + |prefix|] == Split(id)[i];
    assert forall i :: |prefix| <= i < |all| ==> all[i] == Split(id)[i - |prefix|];
    if prefix == [] {
      SplitSingle(id);
      assert all == Split(id) && prefix + ["*"] == ["*"];
      assert ["*"][1..] == [];
    } else {
      PrefixedTokens(prefix[1..], id);
      assert (prefix + ["*"])[1..] == prefix[1..] + ["*"] && all[1..] == prefix[1..] + Split(id);
    }
  }

  /** So the heartbeats and deregistrations it hears are those of IDs without a dot. */
  lemma GatewayHearsIff(kind: string, id: AgentId)
    requires '.' !in kind && Legible(kind) && kind != "*" && kind != ">"
    ensures HeardByGateway(kind, id) <==> Publishable(id) && '.' !in id
  {
    GatewayTokens(kind, id);
    GatewayTokens(kind, "*");
    SplitSingle("*");
    PrefixedTokens(["usulnet", "agent", kind], id);
  }

  lemma GatewayTokens(kind: string, id: AgentId)
    requires '.' !in kind
    ensures Split(GatewaySubject(kind, id)) == ["usulnet", "agent", kind] + Split(id)
  {
    SplitThree("usulnet", "agent", kind, id);
  }

  lemma SplitThree(a: string, b: string, c: string, s: string)
    requires '.' !in a && '.' !in b && '.' !in c
    ensures Split(Dotted(a, Dotted(b, Dotted(c, s)))) == [a, b, c] + Split(s)
  {
    SplitDot(c, s);
    SplitDot(b, Dotted(c, s));
    SplitDot(a, Dotted(b, Dotted(c, s)));
  }
}
