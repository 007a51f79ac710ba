/** Guarded actions: the canonical digest that identifies one, and what makes an approval valid for it. */
module Actions {
  import opened Ordering

  datatype Action = Action(
    tool: string,
    target: string,
    arguments: map<string, string>,
    inputVersions: map<string, string>,
    artifactVersions: map<string, string>,
    policyVersion: string,
    scope: string)

  /** The hash of the canonical encoding. A collision-free hash is a constructor over what it hashes. */
  datatype Digest = Sha256(
    tool: string,
    target: string,
    policy: string,
    scope: string,
    args: seq<(string, string)>,
    inputs: seq<(string, string)>,
    artifacts: seq<(string, string)>)

  ghost function SortedPairs(m: map<string, string>): (r: seq<(string, string)>) {
    PairsOf(SortedBag(multiset(m.Keys)), m)
  }

  function PairsOf(keys: seq<string>, m: map<string, string>): seq<(string, string)> {
    seq(|keys|, i requires 0 <= i < |keys| => (keys[i], if keys[i] in m then m[keys[i]] else ""))
  }

  ghost function DigestOf(a: Action): Digest {
    Sha256(a.tool, a.target, a.policyVersion, a.scope,
           SortedPairs(a.arguments), SortedPairs(a.inputVersions), SortedPairs(a.artifactVersions))
  }

  method SortedKeys(m: map<string, string>) returns (keys: seq<string>)
    ensures keys == SortedBag(multiset(m.Keys))
    ensures forall k | k in keys :: k in m
  {
    keys := [];
    var todo := m.Keys;
    while todo != {}
      invariant todo <= m.Keys
      invariant multiset(keys) == multiset(m.Keys - todo)
      decreases todo
    {
      var k :| k in todo;
      keys := keys + [k];
      assert m.Keys - (todo - {k}) == (m.Keys - todo) + {k};
      todo := todo - {k};
    }
    assert m.Keys - todo == m.Keys;
    keys := SortStrings(keys);
    SortedIsSortedBag(keys);
    forall k | k in keys ensures k in m { assert k in multiset(keys); }
  }

  method Pairs(m: map<string, string>) returns (r: seq<(string, string)>)
    ensures r == SortedPairs(m)
  {
    var keys := SortedKeys(m);
    r := [];
    for i := 0 to |keys|
      invariant r == PairsOf(keys, m)[..i]
    {
      r := r + [(keys[i], m[keys[i]])];
    }
  }

  method ActionDigest(a: Action) returns (d: Digest)
    ensures d == DigestOf(a)
  {
    var args := Pairs(a.arguments);
    var inputs := Pairs(a.inputVersions);
    var artifacts := Pairs(a.artifactVersions);
    d := Sha256(a.tool, a.target, a.policyVersion, a.scope, args, inputs, artifacts);
  }

  lemma {:induction false} SortedBagMembers(b: multiset<string>)
    ensures forall x :: x in SortedBag(b) <==> x in b
    decreases |b|
  {
    if |b| > 0 {
      assert exists x :: x in b;
      assert Elements(b) != {};
      var x := Least(Elements(b));
      SortedBagMembers(b - multiset{x});
    }
  }

  lemma SortedPairsDetermine(a: map<string, string>, b: map<string, string>)
    requires SortedPairs(a) == SortedPairs(b)
    ensures a == b
  {
    hide SortedBag;
    var ka, kb := SortedBag(multiset(a.Keys)), SortedBag(multiset(b.Keys));
    SortedBagMembers(multiset(a.Keys));
    SortedBagMembers(multiset(b.Keys));
    forall i | 0 <= i < |ka| ensures ka[i] == kb[i] && ka[i] in a && kb[i] in b && a[ka[i]] == b[ka[i]] {
      assert SortedPairs(a)[i] == SortedPairs(b)[i];
      assert ka[i] in multiset(a.Keys) && kb[i] in multiset(b.Keys);
    }
    assert |ka| == |SortedPairs(a)| == |kb|;
    assert ka == kb;
    assert forall k :: (k in a <==> k in multiset(a.Keys)) && (k in b <==> k in multiset(b.Keys));
    forall k | k in a ensures k in b && a[k] == b[k] {
      var i :| 0 <= i < |ka| && ka[i] == k;
    }
    assert a.Keys == b.Keys;
  }

  /** Two actions have the same digest only when they agree in every part, whatever the order of their maps. */
  lemma DigestIdentifiesAction(a: Action, b: Action)
    ensures DigestOf(a) == DigestOf(b) <==> a == b
  {
    if DigestOf(a) == DigestOf(b) {
      SortedPairsDetermine(a.arguments, b.arguments);
      SortedPairsDetermine(a.inputVersions, b.inputVersions);
      SortedPairsDetermine(a.artifactVersions, b.artifactVersions);
    }
  }

  datatype Approval = Approval(digest: Digest, actor: string, scope: string, expires: int, authorizedActors: seq<string>)

  ghost predicate IsValidFor(ap: Approval, action: Action, now: int) {
    && ap.actor != "" && ap.scope != ""
    && action.scope == ap.scope
    && now < ap.expires
    && ap.digest == DigestOf(action)
    && ap.actor in ap.authorizedActors
  }

  method ValidFor(ap: Approval, action: Action, now: int) returns (ok: bool)
    ensures ok <==> IsValidFor(ap, action, now)
  {
    var d := ActionDigest(action);
    if ap.actor == "" || ap.scope == "" || action.scope != ap.scope || !(now < ap.expires) || ap.digest != d {
      return false;
    }
    for i := 0 to |ap.authorizedActors|
      invariant ap.actor !in ap.authorizedActors[..i]
    {
      if ap.authorizedActors[i] == ap.actor {
        return true;
      }
    }
    return false;
  }

  /** An approval is good for one action only: any change of tool, target, arguments, versions, policy or scope voids it. */
  lemma ApprovalBindsOneAction(ap: Approval, a: Action, b: Action, now: int, later: int)
    requires IsValidFor(ap, a, now) && IsValidFor(ap, b, later)
    ensures a == b
  {
    DigestIdentifiesAction(a, b);
  }
}
