/**
 * The part of the shared contents cache that the observable-property cache
 * update writes: human-readable names, offerings and procedures per
 * observable property, the composite phenomena, and the links between a
 * composite phenomenon and its member properties.
 */
module ContentsCaches {

  /** A snapshot of the cache sections written by the observable-property update. */
  datatype CacheState = CacheState(
    names: map<string, string>,             // property identifier -> human-readable name
    offerings: map<string, set<string>>,    // property identifier -> offering identifiers
    procedures: map<string, set<string>>,   // property identifier -> procedure identifiers
    composites: set<string>,                // identifiers of the composite phenomena
    compositesOf: map<string, set<string>>, // property identifier -> composite phenomena it belongs to
    membersOf: map<string, set<string>>)    // composite phenomenon -> identifiers of its members

  /** The set stored under `k`, or the empty set when `k` has none. */
  function Members(m: map<string, set<string>>, k: string): set<string>
  {
    if k in m then m[k] else {}
  }

  /** `m1` and `m2` agree on the key `k`: both lack it or both hold the same value. */
  predicate UnchangedAt<V(==)>(m1: map<string, V>, m2: map<string, V>, k: string)
  {
    (k in m1 <==> k in m2) && (k in m1 ==> m1[k] == m2[k])
  }

  /** Adds `v` to the set stored under `k`, creating that set when it is missing. */
  function AddTo(m: map<string, set<string>>, k: string, v: string): (r: map<string, set<string>>)
    ensures r.Keys == m.Keys + {k}
    ensures Members(r, k) == Members(m, k) + {v}
    ensures forall k' :: k' != k ==> Members(r, k') == Members(m, k')
  {
    m[k := Members(m, k) + {v}]
  }

  function LinkKeys(links: set<(string, string)>): set<string>
  {
    set l | l in links :: l.0
  }

  /** The values that `links` pairs with the key `k`. */
  function LinkedTo(links: set<(string, string)>, k: string): set<string>
  {
    set l | l in links && l.0 == k :: l.1
  }

  /** Adds every pair `(k, v)` of `links` to the set-valued map `m`, as repeated AddTo calls do. */
  function AddLinks(m: map<string, set<string>>, links: set<(string, string)>): (r: map<string, set<string>>)
    ensures r.Keys == m.Keys + LinkKeys(links)
    ensures forall k :: Members(r, k) == Members(m, k) + LinkedTo(links, k)
  {
    map k | k in m.Keys + LinkKeys(links) :: Members(m, k) + LinkedTo(links, k)
  }

  lemma AddLinksNone(m: map<string, set<string>>)
    ensures AddLinks(m, {}) == m
  {
    var r := AddLinks(m, {});
    assert LinkKeys({}) == {};
    forall k | k in m ensures r[k] == m[k] {
      assert LinkedTo({}, k) == {};
      assert Members(r, k) == Members(m, k);
    }
  }

  lemma LinkKeysUnion(links1: set<(string, string)>, links2: set<(string, string)>)
    ensures LinkKeys(links1 + links2) == LinkKeys(links1) + LinkKeys(links2)
  {
    forall x | x in LinkKeys(links1 + links2) ensures x in LinkKeys(links1) + LinkKeys(links2) {
      var l :| l in links1 + links2 && l.0 == x;
    }
  }

  lemma AddLinksUnionAt(m: map<string, set<string>>, links1: set<(string, string)>, links2: set<(string, string)>, k: string)
    ensures Members(AddLinks(AddLinks(m, links1), links2), k) == Members(AddLinks(m, links1 + links2), k)
  {
    assert LinkedTo(links1 + links2, k) == LinkedTo(links1, k) + LinkedTo(links2, k);
  }

  /** Two set-valued maps with the same keys and the same members under every key are equal. */
  lemma SameMembers(r1: map<string, set<string>>, r2: map<string, set<string>>)
    requires r1.Keys == r2.Keys
    requires forall k :: Members(r1, k) == Members(r2, k)
    ensures r1 == r2
  {
    forall k | k in r1
      ensures r1[k] == r2[k]
    {
      assert Members(r1, k) == Members(r2, k);
    }
  }

  /** Adding two batches of links one after the other adds their union. */
  lemma AddLinksUnion(m: map<string, set<string>>, links1: set<(string, string)>, links2: set<(string, string)>)
    ensures AddLinks(AddLinks(m, links1), links2) == AddLinks(m, links1 + links2)
  {
    LinkKeysUnion(links1, links2);
    AddLinksUnionMembers(m, links1, links2);
    SameMembers(AddLinks(AddLinks(m, links1), links2), AddLinks(m, links1 + links2));
  }

  lemma AddLinksUnionMembers(m: map<string, set<string>>, links1: set<(string, string)>, links2: set<(string, string)>)
    ensures forall k :: Members(AddLinks(AddLinks(m, links1), links2), k) == Members(AddLinks(m, links1 + links2), k)
  {
    forall k
      ensures Members(AddLinks(AddLinks(m, links1), links2), k) == Members(AddLinks(m, links1 + links2), k)
    {
      AddLinksUnionAt(m, links1, links2, k);
    }
  }

  lemma AddLinksInsertAt(m: map<string, set<string>>, links: set<(string, string)>, k: string, v: string, k': string)
    ensures Members(AddLinks(m, links + {(k, v)}), k') == Members(AddTo(AddLinks(m, links), k, v), k')
  {
    assert LinkedTo(links + {(k, v)}, k') == LinkedTo(links, k') + (if k' == k then {v} else {});
  }

  lemma AddLinksInsertMembers(m: map<string, set<string>>, links: set<(string, string)>, k: string, v: string)
    ensures forall k' :: Members(AddLinks(m, links + {(k, v)}), k') == Members(AddTo(AddLinks(m, links), k, v), k')
  {
    forall k'
      ensures Members(AddLinks(m, links + {(k, v)}), k') == Members(AddTo(AddLinks(m, links), k, v), k')
    {
      AddLinksInsertAt(m, links, k, v, k');
    }
  }

  lemma AddLinksInsertKeys(m: map<string, set<string>>, links: set<(string, string)>, k: string, v: string)
    ensures AddLinks(m, links + {(k, v)}).Keys == AddTo(AddLinks(m, links), k, v).Keys
  {
    LinkKeysUnion(links, {(k, v)});
    assert LinkKeys({(k, v)}) == {k};
  }

  /** Adding one more link is one more AddTo call. */
  lemma AddLinksInsert(m: map<string, set<string>>, links: set<(string, string)>, k: string, v: string)
    ensures AddLinks(m, links + {(k, v)}) == AddTo(AddLinks(m, links), k, v)
  {
    AddLinksInsertKeys(m, links, k, v);
    AddLinksInsertMembers(m, links, k, v);
    SameMembers(AddLinks(m, links + {(k, v)}), AddTo(AddLinks(m, links), k, v));
  }

  /**
   * The shared cache, reduced to the sections this model writes. Each method
   * is one mutation operation of the cache and changes exactly one section.
   */
  class ContentsCache {
    var names: map<string, string>
    var offerings: map<string, set<string>>
    var procedures: map<string, set<string>>
    var composites: set<string>
    var compositesOf: map<string, set<string>>
    var membersOf: map<string, set<string>>

    function State(): CacheState
      reads this
    {
      CacheState(names, offerings, procedures, composites, compositesOf, membersOf)
    }

    constructor ()
      ensures State() == CacheState(map[], map[], map[], {}, map[], map[])
    {
      names, offerings, procedures := map[], map[], map[];
      composites, compositesOf, membersOf := {}, map[], map[];
    }

    method AddObservablePropertyIdentifierHumanReadableName(property: string, name: string)
      modifies this
      ensures State() == old(State()).(names := old(names)[property := name])
    {
      names := names[property := name];
    }

    method SetOfferingsForObservableProperty(property: string, offeringIds: set<string>)
      modifies this
      ensures State() == old(State()).(offerings := old(offerings)[property := offeringIds])
    {
      offerings := offerings[property := offeringIds];
    }

    method SetProceduresForObservableProperty(property: string, procedureIds: set<string>)
      modifies this
      ensures State() == old(State()).(procedures := old(procedures)[property := procedureIds])
    {
      procedures := procedures[property := procedureIds];
    }

    method AddCompositePhenomenon(composite: string)
      modifies this
      ensures State() == old(State()).(composites := old(composites) + {composite})
    {
      composites := composites + {composite};
    }

    method AddCompositePhenomenonForObservableProperty(property: string, composite: string)
      modifies this
      ensures State() == old(State()).(compositesOf := AddTo(old(compositesOf), property, composite))
    {
      compositesOf := AddTo(compositesOf, property, composite);
    }

    method AddObservablePropertyForCompositePhenomenon(composite: string, property: string)
      modifies this
      ensures State() == old(State()).(membersOf := AddTo(old(membersOf), composite, property))
    {
      membersOf := AddTo(membersOf, composite, property);
    }
  }
}
