/**
 What an Update carries: the latest stored manifest of each distinct known component, in the
 order in which the components were first listed.
 */
module Selection {
  import opened Wrappers
  import opened Tables
  import opened Protocol
  import Cbor

  /** The keys of the listed components, repeats and all. */
  function Listed(ids: seq<Cbor.ComponentId>): (r: seq<Bytes>)
    ensures |r| == |ids| && forall i :: 0 <= i < |ids| ==> r[i] == Cbor.ComponentKey(ids[i])
  {
    seq(|ids|, i requires 0 <= i < |ids| => Cbor.ComponentKey(ids[i]))
  }

  ghost predicate NoRepeats(keys: seq<Bytes>)
  {
    forall i, j :: 0 <= i < j < |keys| ==> keys[i] != keys[j]
  }

  /** Where a key first occurs, or one past the end. */
  function FirstAt(keys: seq<Bytes>, key: Bytes): (r: nat)
    ensures r <= |keys| && (r < |keys| ==> keys[r] == key) && forall i :: 0 <= i < r ==> keys[i] != key
  {
    if keys == [] || keys[0] == key then 0 else
      var rest := FirstAt(keys[1..], key);
      assert forall i :: 1 <= i < 1 + rest ==> keys[i] == keys[1..][i - 1];
      1 + rest
  }

  /** The same keys, once each, in order of first occurrence. */
  ghost predicate Deduplicates(keys: seq<Bytes>, all: seq<Bytes>)
  {
    && NoRepeats(keys)
    && (forall key :: key in keys <==> key in all)
    && (forall i, j :: 0 <= i < j < |keys| ==> FirstAt(all, keys[i]) < FirstAt(all, keys[j]))
  }

  lemma FirstAtExtended(all: seq<Bytes>, more: seq<Bytes>, key: Bytes)
    ensures key in all ==> FirstAt(all + more, key) == FirstAt(all, key) < |all|
    ensures key !in all ==> FirstAt(all + more, key) >= |all|
  {
    var r, s := FirstAt(all + more, key), FirstAt(all, key);
    if key in all {
      assert (all + more)[s] == key;
      assert r < |all| ==> all[r] == key;
    } else {
      assert forall k :: 0 <= k < |all| ==> (all + more)[k] == all[k];
    }
  }

  lemma DeduplicatesOneMore(keys: seq<Bytes>, all: seq<Bytes>, key: Bytes)
    requires Deduplicates(keys, all)
    ensures Deduplicates(if key in keys then keys else keys + [key], all + [key])
  {
    var keys' := if key in keys then keys else keys + [key];
    forall k | k in keys' ensures k in all + [key] {
    }
    forall i, j | 0 <= i < j < |keys'| ensures FirstAt(all + [key], keys'[i]) < FirstAt(all + [key], keys'[j]) {
      FirstAtExtended(all, [key], keys'[i]);
      FirstAtExtended(all, [key], keys'[j]);
      assert keys'[i] == keys[i] && keys[i] in keys;
      if j < |keys| { assert keys[j] in keys; }
    }
  }

  lemma {:induction false} AddDistinctDeduplicates(acc: seq<Bytes>, all: seq<Bytes>, ids: seq<Cbor.ComponentId>)
    requires Deduplicates(acc, all)
    ensures Deduplicates(AddDistinct(acc, ids), all + Listed(ids))
    decreases |ids|
  {
    hide Deduplicates, Cbor.ComponentKey;
    if ids == [] {
      assert all + Listed(ids) == all;
    } else {
      var key := Cbor.ComponentKey(ids[0]);
      DeduplicatesOneMore(acc, all, key);
      AddDistinctDeduplicates(if key in acc then acc else acc + [key], all + [key], ids[1..]);
      assert all + [key] + Listed(ids[1..]) == all + Listed(ids);
    }
  }

  /** The components of an Update are those listed, each once, requested-tc-list before
      tc-list, in order of first occurrence. */
  lemma ComponentSetDeduplicates(message: Message)
    ensures Deduplicates(ComponentSet(message), Listed(message.requested) + Listed(message.tcList))
  {
    assert Deduplicates([], []);
    AddDistinctDeduplicates([], [], message.requested);
    assert [] + Listed(message.requested) == Listed(message.requested);
    AddDistinctDeduplicates(AddDistinct([], message.requested), Listed(message.requested), message.tcList);
  }

  /** The components for which some manifest is stored, in order. */
  ghost function KnownOnes(manifests: seq<ManifestRow>, components: seq<Bytes>): (r: seq<Bytes>)
    ensures forall k :: 0 <= k < |r| ==> r[k] in components && KnownComponent(manifests, r[k])
    ensures forall c :: c in components && KnownComponent(manifests, c) ==> c in r
  {
    if components == [] then []
    else
      var last := components[|components| - 1];
      KnownOnes(manifests, components[..|components| - 1]) + (if KnownComponent(manifests, last) then [last] else [])
  }

  /** The latest row of each known component, one for one. */
  ghost predicate Selects(manifests: seq<ManifestRow>, components: seq<Bytes>, picked: seq<nat>)
  {
    var known := KnownOnes(manifests, components);
    |picked| == |known| && forall k :: 0 <= k < |picked| ==> IsLatest(manifests, known[k], picked[k])
  }

  lemma SelectsOneMore(manifests: seq<ManifestRow>, components: seq<Bytes>, picked: seq<nat>,
                       component: Bytes, pick: Option<nat>)
    requires Selects(manifests, components, picked) && PicksLatest(manifests, component, pick)
    ensures Selects(manifests, components + [component], if pick.None? then picked else picked + [pick.value])
  {
    assert (components + [component])[..|components|] == components;
    if pick.Some? { assert KnownComponent(manifests, component); }
  }

  /** No component of an Update is served twice, and nothing at all is served exactly when
      nothing listed is known. */
  lemma SelectionIsExact(manifests: seq<ManifestRow>, message: Message, picked: seq<nat>)
    requires Selects(manifests, ComponentSet(message), picked)
    ensures forall i, j :: 0 <= i < j < |picked| ==>
      && picked[i] < |manifests| && picked[j] < |manifests|
      && manifests[picked[i]].component != manifests[picked[j]].component
    ensures forall c ::
      (c in Listed(message.requested) || c in Listed(message.tcList)) && KnownComponent(manifests, c) ==>
      exists i :: 0 <= i < |picked| && IsLatest(manifests, c, picked[i])
    ensures picked == [] <==>
      forall c :: c in Listed(message.requested) || c in Listed(message.tcList) ==> !KnownComponent(manifests, c)
  {
    var components := ComponentSet(message);
    var known := KnownOnes(manifests, components);
    ComponentSetDeduplicates(message);
    KnownOnesDistinct(manifests, components);
    forall c | (c in Listed(message.requested) || c in Listed(message.tcList)) && KnownComponent(manifests, c)
      ensures exists i :: 0 <= i < |picked| && IsLatest(manifests, c, picked[i])
    {
      assert c in components && c in known;
      var i :| 0 <= i < |known| && known[i] == c;
      assert IsLatest(manifests, c, picked[i]);
    }
    if picked != [] {
      assert known[0] in components;
    }
  }

  lemma {:induction false} KnownOnesDistinct(manifests: seq<ManifestRow>, components: seq<Bytes>)
    requires NoRepeats(components)
    ensures NoRepeats(KnownOnes(manifests, components))
    decreases |components|
  {
    if components != [] {
      var front := components[..|components| - 1];
      KnownOnesDistinct(manifests, front);
      forall k | 0 <= k < |KnownOnes(manifests, front)|
        ensures KnownOnes(manifests, front)[k] != components[|components| - 1]
      {
        assert KnownOnes(manifests, front)[k] in front;
      }
    }
  }
}
