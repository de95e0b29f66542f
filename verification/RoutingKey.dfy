/** AMQP routing keys and the topic patterns that subscriptions bind with. */
module RoutingKey {
  import opened Common
  import opened Text

  function Replace(s: string, from: char, to: char): (r: string)
    ensures |r| == |s|
    ensures forall i :: 0 <= i < |s| ==> r[i] == if s[i] == from then to else s[i]
  {
    seq(|s|, i requires 0 <= i < |s| => if s[i] == from then to else s[i])
  }

  /** A service name as one word of a routing key. */
  function Slashed(service: string): string {
    Replace(service, '.', '/')
  }

  function MessageToRoutingKey(service: string, rpc: string): string {
    Join(["service", Slashed(service), rpc], '.')
  }

  /** The service and method a key was made for: the second word, and everything after it. */
  function ReadKey(key: string): Option<(string, string)> {
    var words := Split(key, '.');
    if |words| < 3 || words[0] != "service" then None
    else Some((Replace(words[1], '/', '.'), Join(words[2..], '.')))
  }

  /** What a subscription to a whole service binds. */
  function ServicePattern(service: string): string {
    Join(["service", Slashed(service), "*"], '.')
  }

  /** What a subscription to one method binds. */
  function MethodPattern(service: string, rpc: string): string {
    MessageToRoutingKey(service, rpc)
  }

  /** Topic matching of section 3.1.3.3 of AMQP 0-9-1: `*` is one word, `#` any number of them. */
  predicate Matches(pattern: seq<string>, words: seq<string>)
    decreases |pattern| + |words|
  {
    if pattern == [] then words == []
    else if pattern[0] == "#" then Matches(pattern[1..], words) || (words != [] && Matches(pattern, words[1..]))
    else words != [] && (pattern[0] == "*" || pattern[0] == words[0]) && Matches(pattern[1..], words[1..])
  }

  predicate Binds(pattern: string, key: string) {
    Matches(Split(pattern, '.'), Split(key, '.'))
  }

  lemma SlashedHasNoDot(service: string)
    ensures '.' !in Slashed(service)
  {
  }

  lemma KeyParts(service: string, rpc: string)
    ensures MessageToRoutingKey(service, rpc) == "service" + ['.'] + (Slashed(service) + ['.'] + rpc)
  {
    var s := Slashed(service);
    assert ["service", s, rpc][1..] == [s, rpc] && [s, rpc][1..] == [rpc];
    assert Join([s, rpc], '.') == s + ['.'] + Join([rpc], '.');
  }

  lemma KeyWords(service: string, rpc: string)
    ensures Split(MessageToRoutingKey(service, rpc), '.') == ["service", Slashed(service)] + Split(rpc, '.')
  {
    var s := Slashed(service);
    KeyParts(service, rpc);
    SlashedHasNoDot(service);
    hide MessageToRoutingKey, Slashed, Split;
    SplitFirst("service", s + ['.'] + rpc, '.');
    SplitFirst(s, rpc, '.');
  }

  /** Undoing the replacement gives the name back exactly when it had no slash of its own. */
  lemma ReplaceBackIff(service: string)
    ensures Replace(Slashed(service), '/', '.') == service <==> '/' !in service
  {
    var back := Replace(Slashed(service), '/', '.');
    forall i | 0 <= i < |service|
      ensures back[i] == service[i] <==> service[i] != '/'
    {
    }
  }

  /** A routing key tells its service and method exactly when the service name has no slash. */
  lemma KeyIsReadBackIff(service: string, rpc: string)
    ensures ReadKey(MessageToRoutingKey(service, rpc)) == Some((service, rpc)) <==> '/' !in service
  {
    KeyWords(service, rpc);
    JoinSplit(rpc, '.');
    assert Split(MessageToRoutingKey(service, rpc), '.')[2..] == Split(rpc, '.');
    ReplaceBackIff(service);
  }

  lemma SlashedIsInjective(a: string, b: string)
    requires '/' !in a && '/' !in b && Slashed(a) == Slashed(b)
    ensures a == b
  {
    ReplaceBackIff(a);
    ReplaceBackIff(b);
  }

  /** A pattern without wildcards matches itself only. */
  lemma {:induction false} PlainMatches(pattern: seq<string>, words: seq<string>)
    requires "*" !in pattern && "#" !in pattern
    ensures Matches(pattern, words) <==> pattern == words
  {
    if pattern != [] && words != [] {
      PlainMatches(pattern[1..], words[1..]);
      assert pattern == [pattern[0]] + pattern[1..] && words == [words[0]] + words[1..];
    }
  }

  lemma OneWord(words: seq<string>)
    ensures Matches(["*"], words) <==> |words| == 1
  {
    assert ["*"][1..] == [];
    if words != [] {
      assert words[1..] == [] <==> |words| == 1;
    }
  }

  lemma MatchWord(word: string, pattern: seq<string>, words: seq<string>)
    requires word != "*" && word != "#" && words != []
    ensures Matches([word] + pattern, words) <==> word == words[0] && Matches(pattern, words[1..])
  {
    assert ([word] + pattern)[1..] == pattern;
  }

  /**
   The pattern of a service binds exactly the one-word methods of the services
   that look like it once dots have become slashes.
   */
  lemma ServicePatternBindsIff(service: string, other: string, rpc: string)
    requires Slashed(service) != "*" && Slashed(service) != "#"
    ensures Binds(ServicePattern(service), MessageToRoutingKey(other, rpc)) <==> Slashed(service) == Slashed(other) && '.' !in rpc
  {
    var s, o := Slashed(service), Slashed(other);
    KeyWords(service, "*");
    KeyWords(other, rpc);
    SplitWhole("*", '.');
    OnePartIff(rpc, '.');
    var rest := Split(rpc, '.');
    var words := ["service", o] + rest;
    assert words[1..] == [o] + rest && ([o] + rest)[1..] == rest;
    assert Split(ServicePattern(service), '.') == ["service"] + ([s] + ["*"]);
    MatchWord("service", [s] + ["*"], words);
    MatchWord(s, ["*"], [o] + rest);
    OneWord(rest);
  }

  /** Without slashes in service names, a service's subscription gets that service's messages and no others. */
  lemma ServiceSubscriptionIsExact(service: string, other: string, rpc: string)
    requires '/' !in service && '/' !in other && '.' !in rpc
    requires service != "*" && service != "#"
    ensures Binds(ServicePattern(service), MessageToRoutingKey(other, rpc)) <==> service == other
  {
    if service == "." {
      SlashedIsInjective(service, service);
    }
    SlashedHasNoDot(service);
    assert Slashed(service) != "*" && Slashed(service) != "#" by {
      assert |service| == 1 ==> Slashed(service)[0] == (if service[0] == '.' then '/' else service[0]);
      assert |service| == 1 ==> service == [service[0]];
    }
    ServicePatternBindsIff(service, other, rpc);
    if Slashed(service) == Slashed(other) {
      SlashedIsInjective(service, other);
    }
  }

  /** A method's subscription gets the messages of that method and no others. */
  lemma MethodSubscriptionIsExact(service: string, rpc: string, other: string, otherRpc: string)
    requires '/' !in service && '/' !in other
    requires "*" !in [Slashed(service)] + Split(rpc, '.') && "#" !in [Slashed(service)] + Split(rpc, '.')
    ensures Binds(MethodPattern(service, rpc), MessageToRoutingKey(other, otherRpc)) <==> service == other && rpc == otherRpc
  {
    hide Split, Join, Matches, Slashed, MessageToRoutingKey;
    KeyWords(service, rpc);
    KeyWords(other, otherRpc);
    var pattern, words := ["service", Slashed(service)] + Split(rpc, '.'), ["service", Slashed(other)] + Split(otherRpc, '.');
    assert pattern == ["service"] + ([Slashed(service)] + Split(rpc, '.'));
    PlainMatches(pattern, words);
    if pattern == words {
      assert pattern[1] == words[1] && pattern[2..] == Split(rpc, '.') && words[2..] == Split(otherRpc, '.');
      SlashedIsInjective(service, other);
      JoinSplit(rpc, '.');
      JoinSplit(otherRpc, '.');
    }
  }

  /** The text of a key: the word service, the service with its dots as slashes, and the method. */
  lemma KeyText(service: string, rpc: string)
    ensures MessageToRoutingKey(service, rpc) == "service." + (Slashed(service) + ("." + rpc))
    ensures |Slashed(service)| == |service|
    ensures forall i :: 0 <= i < |service| ==> Slashed(service)[i] == if service[i] == '.' then '/' else service[i]
  {
    var s := Slashed(service);
    assert ["service", s, rpc][1..] == [s, rpc] && [s, rpc][1..] == [rpc];
    assert Join([s, rpc], '.') == s + ("." + rpc);
    assert Join(["service", s, rpc], '.') == "service" + ['.'] + Join([s, rpc], '.');
  }

  /** What a pattern word binds: the star one word of any kind, the hash any number of words, another word itself. */
  lemma {:induction false} PatternWords(word: string, words: seq<string>)
    ensures Matches(["*"], words) <==> |words| == 1
    ensures Matches(["#"], words)
    ensures word != "*" && word != "#" ==> (Matches([word], words) <==> words == [word])
  {
    OneWord(words);
    assert ["#"][1..] == [] && [word][1..] == [];
    if words != [] {
      PatternWords(word, words[1..]);
      assert words == [words[0]] + words[1..];
    }
  }
}
