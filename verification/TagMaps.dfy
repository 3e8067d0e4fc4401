/** Tags of an ObjectsUser: conversion and comparison. Loops over a map pick
    the next key arbitrarily, so what is proved holds for every order. */
module TagMaps {

  type Tags = map<string, string>

  /** Whether the observed tags have to be written again. The check is
      one-sided: further observed tags do no harm unless none are desired. */
  predicate TagsDiffer(desired: Tags, observed: Tags) {
    || (exists k :: k in desired && !(k in observed && observed[k] == desired[k]))
    || (desired == map[] && observed != map[])
  }

  method ToTagMap(tags: Tags) returns (tagMap: Tags)
    ensures tagMap == tags
  {
    if |tags| == 0 {
      return map[];
    }
    tagMap := map[];
    var rest := tags.Keys;
    while rest != {}
      invariant rest <= tags.Keys
      invariant tagMap.Keys == tags.Keys - rest
      invariant forall k :: k in tagMap ==> tagMap[k] == tags[k]
    {
      var k :| k in rest;
      tagMap := tagMap[k := tags[k]];
      rest := rest - {k};
    }
  }

  method FromTagMap(tagMap: Tags) returns (tags: Tags)
    ensures tags == tagMap
  {
    tags := map[];
    var rest := tagMap.Keys;
    while rest != {}
      invariant rest <= tagMap.Keys
      invariant tags.Keys == tagMap.Keys - rest
      invariant forall k :: k in tags ==> tags[k] == tagMap[k]
    {
      var k :| k in rest;
      tags := tags[k := tagMap[k]];
      rest := rest - {k};
    }
  }

  method TagsNeedUpdate(desired: Tags, observed: Tags) returns (needed: bool)
    ensures needed == TagsDiffer(desired, observed)
  {
    if |observed| > 0 && |desired| == 0 {
      return true;
    }
    var rest := desired.Keys;
    while rest != {}
      invariant rest <= desired.Keys
      invariant forall k :: k in desired && k !in rest ==> k in observed && observed[k] == desired[k]
    {
      var k :| k in rest;
      if k in observed {
        if observed[k] != desired[k] {
          return true;
        }
      } else {
        return true;
      }
      rest := rest - {k};
    }
    return false;
  }

  /** No update is needed just if all desired tags are observed and, when none
      are desired, none are observed. */
  lemma NoUpdateNeeded(desired: Tags, observed: Tags)
    ensures !TagsDiffer(desired, observed) <==>
      && desired.Items <= observed.Items
      && (desired == map[] ==> observed == map[])
  {
    if !TagsDiffer(desired, observed) {
      forall p | p in desired.Items ensures p in observed.Items {
        assert p.0 in observed && observed[p.0] == p.1;
      }
    }
    if desired.Items <= observed.Items {
      forall k | k in desired ensures k in observed && observed[k] == desired[k] {
        assert (k, desired[k]) in desired.Items;
      }
    }
  }

  /** Whatever is observed beyond non-empty desired tags stays for ever. */
  lemma SupersetIsFixed(desired: Tags, more: Tags)
    requires desired != map[] && desired.Keys !! more.Keys
    ensures !TagsDiffer(desired, desired + more)
  {
  }
}
