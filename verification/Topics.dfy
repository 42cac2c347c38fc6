/** Hierarchical topic names (pkg/eventbus/matcher.go, pkg/events/events.go). */
module Topics {
  import opened Texts

  const COLON: byte := 58

  predicate ColonFree(t: Text) {
    COLON !in t
  }

  datatype NamespacedName = NamespacedName(namespace: Text, name: Text)

  // ---------- strings.Split and strings.Join with separator ":" ----------

  /** The position of the first colon at or after `i`, or the length of `t`. */
  function NextColon(t: Text, i: nat): (p: nat)
    requires i <= |t|
    ensures i <= p <= |t|
    ensures ColonFree(t[i..p])
    ensures p < |t| ==> t[p] == COLON
    decreases |t| - i
  {
    if i == |t| || t[i] == COLON then i else
      var p := NextColon(t, i + 1);
      assert t[i..p] == [t[i]] + t[i + 1..p];
      p
  }

  function Split(t: Text): (parts: seq<Text>)
    ensures |parts| > 0
    ensures forall i :: 0 <= i < |parts| ==> ColonFree(parts[i])
    decreases |t|
  {
    var p := NextColon(t, 0);
    assert t[0..p] == t[..p];
    if p == |t| then [t] else [t[..p]] + Split(t[p + 1..])
  }

  function Join(parts: seq<Text>): Text {
    if parts == [] then [] else if |parts| == 1 then parts[0] else parts[0] + [COLON] + Join(parts[1..])
  }

  lemma {:induction false} JoinSplit(t: Text)
    ensures Join(Split(t)) == t
    decreases |t|
  {
    var p := NextColon(t, 0);
    if p < |t| {
      JoinSplit(t[p + 1..]);
      assert Split(t)[1..] == Split(t[p + 1..]);
      assert t == t[..p] + [COLON] + t[p + 1..];
    }
  }

  lemma {:induction false} JoinSnoc(parts: seq<Text>, last: Text)
    requires parts != []
    ensures Join(parts + [last]) == Join(parts) + [COLON] + last
  {
    if |parts| == 1 {
      assert (parts + [last])[1..] == [last];
    } else {
      assert (parts + [last])[1..] == parts[1..] + [last];
      JoinSnoc(parts[1..], last);
    }
  }

  // ---------- SubscriberMatch ----------

  /** The topic with its last segment cut off, when there is more than one. */
  function Parent(topic: Text): (t: Text)
    requires |Split(topic)| > 1
    ensures exists last :: ColonFree(last) && topic == t + [COLON] + last
  {
    var parts := Split(topic);
    JoinSplit(topic);
    JoinSnoc(parts[..|parts| - 1], parts[|parts| - 1]);
    assert parts == parts[..|parts| - 1] + [parts[|parts| - 1]];
    Join(parts[..|parts| - 1])
  }

  function SubscriberMatch<C>(subs: map<Text, seq<C>>, topic: Text): (seq<C>, bool)
    decreases |topic|
  {
    var exact := if topic in subs then subs[topic] else [];
    var chs :=
      if |Split(topic)| > 1 then
        var (r, ok) := SubscriberMatch(subs, Parent(topic));
        if ok then exact + r else exact
      else exact;
    (chs, |chs| > 0)
  }

  /** `s` is the topic or a proper ancestor of it. */
  predicate IsAncestor(s: Text, topic: Text) {
    s == topic || s + [COLON] <= topic
  }

  /** Every ancestor cut out of `topic` at or before position `i`, longest first: the cut points
      are the end of the topic and its colons. */
  function AncestorsUpTo(topic: Text, i: nat): seq<Text>
    requires i <= |topic|
  {
    var shorter := if i == 0 then [] else AncestorsUpTo(topic, i - 1);
    if i == |topic| || topic[i] == COLON then [topic[..i]] + shorter else shorter
  }

  function Ancestors(topic: Text): seq<Text> {
    AncestorsUpTo(topic, |topic|)
  }

  /** The channels of a list of topics, in order. */
  function Channels<C>(subs: map<Text, seq<C>>, topics: seq<Text>): seq<C> {
    if topics == [] then [] else
      (if topics[0] in subs then subs[topics[0]] else []) + Channels(subs, topics[1..])
  }

  predicate LongestFirst(topics: seq<Text>, bound: nat) {
    && (forall j :: 0 <= j < |topics| ==> |topics[j]| <= bound)
    && (forall j, k :: 0 <= j < k < |topics| ==> |topics[j]| > |topics[k]|)
  }

  lemma LongerFirst(s: Text, topics: seq<Text>, bound: nat)
    requires LongestFirst(topics, bound) && bound < |s|
    ensures LongestFirst([s] + topics, |s|)
  {
  }

  lemma {:induction false} AncestorsUpToOrder(topic: Text, i: nat)
    requires i <= |topic|
    ensures LongestFirst(AncestorsUpTo(topic, i), i)
  {
    if i != 0 {
      AncestorsUpToOrder(topic, i - 1);
      if i == |topic| || topic[i] == COLON { LongerFirst(topic[..i], AncestorsUpTo(topic, i - 1), i - 1); }
    }
  }

  lemma {:induction false} AncestorsUpToMembers(topic: Text, i: nat, s: Text)
    requires i <= |topic|
    ensures s in AncestorsUpTo(topic, i) <==> IsAncestor(s, topic) && |s| <= i
  {
    CutIsAncestor(s, topic, i);
    if i != 0 { AncestorsUpToMembers(topic, i - 1, s); }
  }

  lemma CutIsAncestor(s: Text, topic: Text, i: nat)
    requires i <= |topic|
    ensures IsAncestor(s, topic) && |s| == i <==> s == topic[..i] && (i == |topic| || topic[i] == COLON)
  {
  }

  /** The ancestors are exactly the topics s with s == topic or topic starting with s + ":",
      each listed once, longest first. */
  lemma AncestorsExact(topic: Text)
    ensures forall s :: s in Ancestors(topic) <==> IsAncestor(s, topic)
    ensures LongestFirst(Ancestors(topic), |topic|)
    ensures Distinct(Ancestors(topic))
  {
    AncestorsUpToOrder(topic, |topic|);
    forall s ensures s in Ancestors(topic) <==> IsAncestor(s, topic) {
      AncestorsUpToMembers(topic, |topic|, s);
      assert IsAncestor(s, topic) && s != topic ==> |s + [COLON]| <= |topic|;
    }
  }

  lemma {:induction false} AncestorsSkip(topic: Text, p: nat, i: nat)
    requires p <= i < |topic| && ColonFree(topic[p + 1..]) && topic[p] == COLON
    ensures AncestorsUpTo(topic, i) == AncestorsUpTo(topic, p)
  {
    if p < i {
      assert topic[i] in topic[p + 1..] by { assert topic[i] == topic[p + 1..][i - p - 1]; }
      AncestorsSkip(topic, p, i - 1);
    }
  }

  lemma {:induction false} AncestorsOfPrefix(topic: Text, p: nat, i: nat)
    requires i < p < |topic|
    ensures AncestorsUpTo(topic, i) == AncestorsUpTo(topic[..p], i)
  {
    assert topic[..i] == topic[..p][..i];
    if i != 0 { AncestorsOfPrefix(topic, p, i - 1); }
  }

  lemma AncestorsAtColon(topic: Text, p: nat)
    requires p < |topic| && topic[p] == COLON
    ensures AncestorsUpTo(topic, p) == Ancestors(topic[..p])
  {
    assert topic[..p][..p] == topic[..p];
    if p != 0 { AncestorsOfPrefix(topic, p, p - 1); }
  }

  lemma AncestorsStep(topic: Text, t: Text, last: Text)
    requires ColonFree(last) && topic == t + [COLON] + last
    ensures Ancestors(topic) == [topic] + Ancestors(t)
  {
    var p := |t|;
    assert topic[p] == COLON;
    assert topic[..p] == t;
    assert topic[p + 1..] == last;
    assert topic[..|topic|] == topic;
    AncestorsSkip(topic, p, |topic| - 1);
    AncestorsAtColon(topic, p);
  }

  lemma AncestorsOfColonFree(topic: Text, i: nat)
    requires ColonFree(topic) && i < |topic|
    ensures AncestorsUpTo(topic, i) == []
  {
  }

  /** SubscriberMatch returns exactly the channels of the topic and of its ancestors, longest
      topic first, and reports whether there are any. */
  lemma {:induction false} MatchExact<C>(subs: map<Text, seq<C>>, topic: Text)
    ensures SubscriberMatch(subs, topic).0 == Channels(subs, Ancestors(topic))
    ensures SubscriberMatch(subs, topic).1 <==> SubscriberMatch(subs, topic).0 != []
    decreases |topic|
  {
    if |Split(topic)| > 1 {
      var t := Parent(topic);
      var last :| ColonFree(last) && topic == t + [COLON] + last;
      MatchExact(subs, t);
      AncestorsStep(topic, t, last);
      assert Ancestors(topic)[1..] == Ancestors(t);
    } else {
      assert topic == topic[0..NextColon(topic, 0)];
      if topic != [] { AncestorsOfColonFree(topic, |topic| - 1); }
      assert Ancestors(topic) == [topic] by { assert topic[..|topic|] == topic; }
    }
  }

  // ---------- what a match contains, position by position ----------

  /** How many channels the topics have between them. */
  function SlicesLength<C>(subs: map<Text, seq<C>>, topics: seq<Text>): nat {
    if topics == [] then 0 else (if topics[0] in subs then |subs[topics[0]]| else 0) + SlicesLength(subs, topics[1..])
  }

  lemma {:induction false} ChannelsLength<C>(subs: map<Text, seq<C>>, topics: seq<Text>)
    ensures |Channels(subs, topics)| == SlicesLength(subs, topics)
  {
    if topics != [] { ChannelsLength(subs, topics[1..]); }
  }

  lemma {:induction false} ChannelsAt<C>(subs: map<Text, seq<C>>, topics: seq<Text>, j: nat, i: nat)
    requires j < |topics| && topics[j] in subs && i < |subs[topics[j]]|
    ensures SlicesLength(subs, topics[..j]) + i < |Channels(subs, topics)|
    ensures Channels(subs, topics)[SlicesLength(subs, topics[..j]) + i] == subs[topics[j]][i]
  {
    if j > 0 {
      ChannelsAt(subs, topics[1..], j - 1, i);
      assert topics[..j][1..] == topics[1..][..j - 1];
    } else {
      assert topics[..0] == [];
    }
  }

  /** The match is made of the whole slices of the ancestors: the channels of the j-th longest ancestor
      follow those of all longer ones, in table order, and there is nothing else. */
  lemma MatchPlaces<C>(subs: map<Text, seq<C>>, topic: Text, j: nat, i: nat)
    requires j < |Ancestors(topic)| && Ancestors(topic)[j] in subs && i < |subs[Ancestors(topic)[j]]|
    ensures |SubscriberMatch(subs, topic).0| == SlicesLength(subs, Ancestors(topic))
    ensures var p := SlicesLength(subs, Ancestors(topic)[..j]) + i;
            p < |SubscriberMatch(subs, topic).0| && SubscriberMatch(subs, topic).0[p] == subs[Ancestors(topic)[j]][i]
  {
    MatchExact(subs, topic);
    ChannelsLength(subs, Ancestors(topic));
    ChannelsAt(subs, Ancestors(topic), j, i);
  }

  lemma AncestorIndex(topic: Text, s: Text) returns (j: nat)
    requires IsAncestor(s, topic)
    ensures j < |Ancestors(topic)| && Ancestors(topic)[j] == s
  {
    AncestorsExact(topic);
    assert s in Ancestors(topic);
    j :| 0 <= j < |Ancestors(topic)| && Ancestors(topic)[j] == s;
  }

  /** No subscriber is lost: every channel registered under the topic or an ancestor of it is matched,
      and no other. */
  lemma MatchComplete<C>(subs: map<Text, seq<C>>, topic: Text)
    ensures forall t, i :: t in subs && IsAncestor(t, topic) && 0 <= i < |subs[t]| ==> subs[t][i] in SubscriberMatch(subs, topic).0
    ensures forall c :: c in SubscriberMatch(subs, topic).0 ==>
              exists t, i :: t in subs && IsAncestor(t, topic) && 0 <= i < |subs[t]| && subs[t][i] == c
    ensures SubscriberMatch(subs, topic).1 <==> exists t :: t in subs && IsAncestor(t, topic) && subs[t] != []
  {
    var all := SubscriberMatch(subs, topic).0;
    forall t, i | t in subs && IsAncestor(t, topic) && 0 <= i < |subs[t]| ensures subs[t][i] in all {
      var j := AncestorIndex(topic, t);
      MatchPlaces(subs, topic, j, i);
    }
    forall c | c in all ensures exists t, i :: t in subs && IsAncestor(t, topic) && 0 <= i < |subs[t]| && subs[t][i] == c {
      var k :| 0 <= k < |all| && all[k] == c;
      var t, i := MatchRegistered(subs, topic, k);
    }
    MatchExact(subs, topic);
    if t :| t in subs && IsAncestor(t, topic) && subs[t] != [] { assert subs[t][0] in all; }
    if all != [] { assert all[0] in all; }
  }

  lemma {:induction false} SlicesLengthGrows<C>(subs: map<Text, seq<C>>, topics: seq<Text>, j: nat, k: nat)
    requires j < k <= |topics|
    ensures SlicesLength(subs, topics[..j]) + (if topics[j] in subs then |subs[topics[j]]| else 0) <= SlicesLength(subs, topics[..k])
  {
    if j > 0 {
      SlicesLengthGrows(subs, topics[1..], j - 1, k - 1);
      assert topics[..j][1..] == topics[1..][..j - 1] && topics[..k][1..] == topics[1..][..k - 1];
    } else {
      assert topics[..0] == [] && topics[..k][0] == topics[0];
    }
  }

  /** Channels of a longer ancestor come before those of a shorter one, and the table order holds inside
      a topic. */
  lemma MatchOrdered<C>(subs: map<Text, seq<C>>, topic: Text, t: Text, i: nat, u: Text, k: nat)
    requires t in subs && u in subs && IsAncestor(t, topic) && IsAncestor(u, topic) && i < |subs[t]| && k < |subs[u]|
    requires |t| > |u| || (t == u && i < k)
    ensures exists p, q :: 0 <= p < q < |SubscriberMatch(subs, topic).0|
                           && SubscriberMatch(subs, topic).0[p] == subs[t][i] && SubscriberMatch(subs, topic).0[q] == subs[u][k]
  {
    var m := AncestorIndex(topic, t);
    var n := AncestorIndex(topic, u);
    MatchPlaces(subs, topic, m, i);
    MatchPlaces(subs, topic, n, k);
    AncestorsExact(topic);
    if t == u {
      assert m == n;
    } else {
      assert m < n;
      SlicesLengthGrows(subs, Ancestors(topic), m, n);
    }
  }

  /** Every channel is registered at most once, under at most one topic. */
  ghost predicate UniqueRegistration<C>(subs: map<Text, seq<C>>) {
    forall t, u, i, j ::
      && t in subs && u in subs && 0 <= i < |subs[t]| && 0 <= j < |subs[u]| && subs[t][i] == subs[u][j]
      ==> t == u && i == j
  }

  /** A channel of the list is registered under one of its topics. */
  lemma {:induction false} ChannelsRegistered<C>(subs: map<Text, seq<C>>, topics: seq<Text>, k: nat)
      returns (t: Text, i: nat)
    requires k < |Channels(subs, topics)|
    ensures t in topics && t in subs && i < |subs[t]| && subs[t][i] == Channels(subs, topics)[k]
  {
    var here := if topics[0] in subs then subs[topics[0]] else [];
    if k < |here| {
      t, i := topics[0], k;
    } else {
      t, i := ChannelsRegistered(subs, topics[1..], k - |here|);
    }
  }

  lemma {:induction false} ChannelsDistinct<C>(subs: map<Text, seq<C>>, topics: seq<Text>)
    requires UniqueRegistration(subs) && Distinct(topics)
    ensures Distinct(Channels(subs, topics))
  {
    if topics != [] {
      var here := if topics[0] in subs then subs[topics[0]] else [];
      var rest := Channels(subs, topics[1..]);
      ChannelsDistinct(subs, topics[1..]);
      forall j, k | 0 <= j < |here| && 0 <= k < |rest| ensures here[j] != rest[k] {
        var t, i := ChannelsRegistered(subs, topics[1..], k);
        assert t != topics[0];
      }
    }
  }

  /** Under unique registration a message is matched to each channel at most once, and only to
      registered channels. */
  lemma MatchDistinct<C>(subs: map<Text, seq<C>>, topic: Text)
    requires UniqueRegistration(subs)
    ensures Distinct(SubscriberMatch(subs, topic).0)
  {
    MatchExact(subs, topic);
    AncestorsExact(topic);
    ChannelsDistinct(subs, Ancestors(topic));
  }

  lemma MatchRegistered<C>(subs: map<Text, seq<C>>, topic: Text, k: nat) returns (t: Text, i: nat)
    requires k < |SubscriberMatch(subs, topic).0|
    ensures IsAncestor(t, topic) && t in subs && i < |subs[t]|
    ensures subs[t][i] == SubscriberMatch(subs, topic).0[k]
  {
    MatchExact(subs, topic);
    AncestorsExact(topic);
    t, i := ChannelsRegistered(subs, Ancestors(topic), k);
  }

  // ---------- fully qualified topic names ----------

  function FullyQualifiedTopicName(topic: Text, source: NamespacedName): Text {
    if source != NamespacedName([], []) then
      topic + [COLON] + source.namespace + [COLON] + source.name
    else topic
  }

  lemma NoColonAfter(x: Text, s: Text, a: Text)
    requires ColonFree(a) && x == s + [COLON] + a
    ensures x[|s|] == COLON && forall q :: |s| < q < |x| ==> x[q] != COLON
  {
  }

  lemma LastSegmentUnique(s: Text, a: Text, t: Text, b: Text)
    requires ColonFree(a) && ColonFree(b) && s + [COLON] + a == t + [COLON] + b
    ensures s == t && a == b
  {
    var x := s + [COLON] + a;
    NoColonAfter(x, s, a);
    NoColonAfter(x, t, b);
    assert |s| == |t|;
    assert s == x[..|s|] && t == x[..|t|] && a == x[|s| + 1..] && b == x[|t| + 1..];
  }

  /** Distinct topics or distinct sources never share a fully qualified name, provided both
      sources are given and neither contains a colon; the topics are unrestricted. */
  lemma QualifiedNameInjective(s: Text, a: NamespacedName, t: Text, b: NamespacedName)
    requires a != NamespacedName([], []) && b != NamespacedName([], [])
    requires ColonFree(a.namespace) && ColonFree(a.name) && ColonFree(b.namespace) && ColonFree(b.name)
    requires FullyQualifiedTopicName(s, a) == FullyQualifiedTopicName(t, b)
    ensures s == t && a == b
  {
    LastSegmentUnique(s + [COLON] + a.namespace, a.name, t + [COLON] + b.namespace, b.name);
    LastSegmentUnique(s, a.namespace, t, b.namespace);
  }

  lemma ColonAt(s: Text) returns (p: Text, q: Text)
    requires !ColonFree(s)
    ensures s == p + [COLON] + q
  {
    var i :| 0 <= i < |s| && s[i] == COLON;
    p, q := s[..i], s[i + 1..];
  }

  /** Every source with a colon in it shares its qualified names with another source. */
  lemma QualifiedNameCollision(s: Text, a: NamespacedName) returns (b: NamespacedName)
    requires !ColonFree(a.namespace) || !ColonFree(a.name)
    ensures b != a && b != NamespacedName([], []) && FullyQualifiedTopicName(s, b) == FullyQualifiedTopicName(s, a)
  {
    if !ColonFree(a.name) {
      var p, q := ColonAt(a.name);
      b := NamespacedName(a.namespace + [COLON] + p, q);
      assert |b.namespace| > |a.namespace|;
    } else {
      var p, q := ColonAt(a.namespace);
      b := NamespacedName(p, q + [COLON] + a.name);
      assert |b.name| > |a.name|;
    }
    assert b.namespace + [COLON] + b.name == a.namespace + [COLON] + a.name;
    Regroup(s, a);
    Regroup(s, b);
  }

  lemma Regroup(s: Text, a: NamespacedName)
    requires a != NamespacedName([], [])
    ensures FullyQualifiedTopicName(s, a) == s + [COLON] + (a.namespace + [COLON] + a.name)
  {
  }

  lemma OneColon(p: Text, q: Text, r: Text, t: Text)
    requires ColonFree(p) && ColonFree(q) && p + [COLON] + q == r + [COLON] + t
    ensures p == r && q == t
  {
    var x := p + [COLON] + q;
    NoColonAfter(x, p, q);
    assert x[|r|] == COLON;
    assert forall i :: 0 <= i < |p| ==> x[i] == p[i] && p[i] in p;
    assert |r| == |p|;
    assert p == x[..|p|] && r == x[..|r|] && q == x[|p| + 1..] && t == x[|r| + 1..];
  }

  /** Among the sources of one topic: a qualified name determines the source if and only if neither its
      namespace nor its name contains a colon. */
  lemma QualifiedNameExact(s: Text, a: NamespacedName)
    requires a != NamespacedName([], [])
    ensures ColonFree(a.namespace) && ColonFree(a.name)
            <==> forall b :: b != NamespacedName([], []) && FullyQualifiedTopicName(s, b) == FullyQualifiedTopicName(s, a) ==> b == a
  {
    if ColonFree(a.namespace) && ColonFree(a.name) {
      forall b | b != NamespacedName([], []) && FullyQualifiedTopicName(s, b) == FullyQualifiedTopicName(s, a) ensures b == a {
        Regroup(s, a);
        Regroup(s, b);
        var x, y := a.namespace + [COLON] + a.name, b.namespace + [COLON] + b.name;
        assert x == (s + [COLON] + x)[|s| + 1..] && y == (s + [COLON] + y)[|s| + 1..];
        OneColon(a.namespace, a.name, b.namespace, b.name);
      }
    } else {
      var b := QualifiedNameCollision(s, a);
    }
  }

  lemma ThreeParts(x: Text, s: Text, m: Text, n: Text, t: Text, k: Text, l: Text)
    requires ColonFree(s) && ColonFree(m) && ColonFree(n)
    requires x == s + [COLON] + m + [COLON] + n && x == t + [COLON] + k + [COLON] + l
    ensures s == t && m == k && n == l
  {
    var p, q := s + [COLON] + m, t + [COLON] + k;
    NoColonAfter(x, p, n);
    assert x[|q|] == COLON;
    assert p == x[..|p|] && q == x[..|q|];
    if |q| < |p| {
      HasColon(t, k);
      OneColonOnly(p, s, m, |q|);
    }
    OneColon(s, m, t, k);
    assert n == x[|p| + 1..] && l == x[|q| + 1..];
  }

  lemma HasColon(t: Text, k: Text)
    ensures !ColonFree(t + [COLON] + k)
  {
    assert (t + [COLON] + k)[|t|] == COLON;
  }

  lemma OneColonOnly(p: Text, s: Text, m: Text, i: nat)
    requires p == s + [COLON] + m && ColonFree(s) && ColonFree(m) && i < |p| && p[i] == COLON
    ensures i == |s| && p[..i] == s
  {
    NoColonAfter(p, s, m);
    assert forall j :: 0 <= j < |s| ==> p[j] == s[j] && s[j] in s;
  }

  /** A topic with a colon shares its qualified names with a shorter topic. */
  lemma QualifiedTopicCollision(s: Text, a: NamespacedName) returns (t: Text, b: NamespacedName)
    requires !ColonFree(s) && a != NamespacedName([], [])
    ensures t != s && b != NamespacedName([], []) && FullyQualifiedTopicName(t, b) == FullyQualifiedTopicName(s, a)
  {
    var q: Text;
    t, q := ColonAt(s);
    b := NamespacedName(q + [COLON] + a.namespace, a.name);
    assert |b.namespace| > 0 && |t| < |s|;
  }

  /** The exact condition: a qualified name determines its topic and its source if and only if neither the
      topic nor the namespace nor the name of the source contains a colon. */
  lemma QualifiedNameDetermines(s: Text, a: NamespacedName)
    requires a != NamespacedName([], [])
    ensures ColonFree(s) && ColonFree(a.namespace) && ColonFree(a.name)
            <==> forall t, b :: b != NamespacedName([], []) && FullyQualifiedTopicName(t, b) == FullyQualifiedTopicName(s, a)
                                ==> t == s && b == a
  {
    if ColonFree(s) && ColonFree(a.namespace) && ColonFree(a.name) {
      forall t, b | b != NamespacedName([], []) && FullyQualifiedTopicName(t, b) == FullyQualifiedTopicName(s, a)
        ensures t == s && b == a
      {
        ThreeParts(FullyQualifiedTopicName(s, a), s, a.namespace, a.name, t, b.namespace, b.name);
      }
    } else if !ColonFree(s) {
      var t, b := QualifiedTopicCollision(s, a);
    } else {
      var b := QualifiedNameCollision(s, a);
    }
  }

  /** Routing: an event of a colon-free name from a colon-free source reaches exactly the
      subscribers of name:namespace:source, then of name:namespace, then of name. */
  lemma QualifiedMatch<C>(subs: map<Text, seq<C>>, name: Text, source: NamespacedName)
    requires ColonFree(name) && ColonFree(source.namespace) && ColonFree(source.name)
    requires source != NamespacedName([], [])
    ensures SubscriberMatch(subs, FullyQualifiedTopicName(name, source)).0
            == Channels(subs, [FullyQualifiedTopicName(name, source), name + [COLON] + source.namespace, name])
  {
    MatchExact(subs, FullyQualifiedTopicName(name, source));
    QualifiedAncestors(name, source);
  }

  lemma AncestorsOfName(name: Text)
    requires ColonFree(name)
    ensures Ancestors(name) == [name]
  {
    assert name[..|name|] == name;
    if name != [] { AncestorsOfColonFree(name, |name| - 1); }
  }

  lemma QualifiedAncestors(name: Text, source: NamespacedName)
    requires ColonFree(name) && ColonFree(source.namespace) && ColonFree(source.name)
    requires source != NamespacedName([], [])
    ensures Ancestors(FullyQualifiedTopicName(name, source))
            == [FullyQualifiedTopicName(name, source), name + [COLON] + source.namespace, name]
  {
    var ns := name + [COLON] + source.namespace;
    AncestorsStep(FullyQualifiedTopicName(name, source), ns, source.name);
    AncestorsStep(ns, name, source.namespace);
    AncestorsOfName(name);
  }

  /** For a colon-free source the topics that a qualified name is matched against are those three if and
      only if the name is colon-free: every prefix of the name that ends at a colon is one more. */
  lemma QualifiedAncestorsIff(name: Text, source: NamespacedName)
    requires ColonFree(source.namespace) && ColonFree(source.name) && source != NamespacedName([], [])
    ensures ColonFree(name)
            <==> Ancestors(FullyQualifiedTopicName(name, source))
                 == [FullyQualifiedTopicName(name, source), name + [COLON] + source.namespace, name]
  {
    if ColonFree(name) {
      QualifiedAncestors(name, source);
    } else {
      var fq := FullyQualifiedTopicName(name, source);
      var p, q := ColonAt(name);
      AncestorsExact(fq);
      assert p + [COLON] <= fq;
      assert p in Ancestors(fq) && |p| < |name|;
    }
  }

  // ---------- qualified names, read back ----------

  lemma {:induction false} SplitAtColon(p: Text, rest: Text)
    requires ColonFree(p)
    ensures Split(p + [COLON] + rest) == [p] + Split(rest)
  {
    var t := p + [COLON] + rest;
    var q := NextColon(t, 0);
    assert t[|p|] == COLON;
    assert forall i :: 0 <= i < |p| ==> t[i] == p[i] && p[i] in p;
    assert forall j :: 0 <= j < q ==> t[j] == t[0..q][j] && t[0..q][j] in t[0..q];
    assert q == |p|;
    assert t[..q] == p && t[q + 1..] == rest;
  }

  lemma SplitColonFree(t: Text)
    requires ColonFree(t)
    ensures Split(t) == [t]
  {
    var q := NextColon(t, 0);
    assert forall j :: 0 <= j < |t| ==> t[j] in t;
  }

  lemma ColonSpelled()
    ensures COLON == ':' as int
  {
  }

  lemma QualifiedNameJoins(topic: Text, source: NamespacedName)
    requires source != NamespacedName([], [])
    ensures FullyQualifiedTopicName(topic, source) == Join([topic, source.namespace, source.name])
  {
    var parts := [topic, source.namespace, source.name];
    assert parts[1..] == [source.namespace, source.name] && parts[1..][1..] == [source.name];
    assert Join(parts[1..]) == source.namespace + [COLON] + source.name;
  }

  /** A qualified name is the topic, the namespace and the name of the source, joined by colons, or the
      topic alone for the empty source; splitting it gives them back when they contain no colon. */
  lemma QualifiedNameSplits(topic: Text, source: NamespacedName)
    ensures source != NamespacedName([], []) ==> FullyQualifiedTopicName(topic, source) == Join([topic, source.namespace, source.name])
    ensures source == NamespacedName([], []) ==> FullyQualifiedTopicName(topic, source) == topic
    ensures source != NamespacedName([], []) && ColonFree(topic) && ColonFree(source.namespace) && ColonFree(source.name) ==>
              Split(FullyQualifiedTopicName(topic, source)) == [topic, source.namespace, source.name]
  {
    if source != NamespacedName([], []) {
      QualifiedNameJoins(topic, source);
      if ColonFree(topic) && ColonFree(source.namespace) && ColonFree(source.name) {
        Regroup(topic, source);
        SplitAtColon(topic, source.namespace + [COLON] + source.name);
        SplitAtColon(source.namespace, source.name);
        SplitColonFree(source.name);
      }
    }
  }
}
