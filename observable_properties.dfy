/**
 * The observable-property cache update: one pass over the observable-property
 * hierarchy that writes names, offerings, procedures, composite phenomena and
 * parent/child links into the shared contents cache. When observation
 * constellations are supported the associations come from the constellation
 * records grouped by property (the bulk path); otherwise every property gets
 * one offering lookup and one procedure lookup, each of which may fail on its
 * own (the fallback path).
 */
module ObservablePropertiesCacheUpdate {
  import opened Results
  import opened ContentsCaches

  /** An observable property as read from the store for one pass. */
  datatype ObservableProperty = ObservableProperty(identifier: string, name: Option<string>, hiddenChild: bool)
  {
    /** A name is set when it is present and not empty. */
    predicate IsSetName()
    {
      name.Some? && name.value != ""
    }
  }

  /** Each observable property of the store with its direct children. */
  type Hierarchy = map<ObservableProperty, set<ObservableProperty>>

  /** One (observable property, procedure, offering) association of the bulk schema. */
  datatype ConstellationInfo = ConstellationInfo(observableProperty: string, procedure: string, offering: string)

  /** The failure a store lookup raises. */
  datatype OwsExceptionReport = OwsExceptionReport(message: string)

  /** The outcome of one offering or procedure lookup on the fallback path. */
  type Lookup = Result<set<string>, OwsExceptionReport>

  /** The store gives every observable property its own identifier. */
  ghost predicate UniqueIdentifiers(ops: set<ObservableProperty>)
  {
    forall a, b :: a in ops && b in ops && a.identifier == b.identifier ==> a == b
  }

  /** `keys` is the iteration order of the hierarchy's key set: every key exactly once. */
  ghost predicate EnumeratesKeys(h: Hierarchy, keys: seq<ObservableProperty>)
  {
    && (forall op :: op in h <==> op in keys)
    && (forall i, j :: 0 <= i < j < |keys| ==> keys[i] != keys[j])
  }

  /** The properties listed in `keys`. */
  function KeySet(keys: seq<ObservableProperty>): set<ObservableProperty>
  {
    set op | op in keys
  }

  lemma KeySetStep(keys: seq<ObservableProperty>, i: nat)
    requires i < |keys|
    ensures KeySet(keys[..i + 1]) == KeySet(keys[..i]) + {keys[i]}
  {
    assert keys[..i + 1] == keys[..i] + [keys[i]];
  }

  lemma KeySetAll(keys: seq<ObservableProperty>)
    ensures keys[..|keys|] == keys && keys[..0] == []
    ensures KeySet(keys[..|keys|]) == KeySet(keys) && KeySet(keys[..0]) == {}
  {
    assert keys[..|keys|] == keys;
  }

  function Identifiers(ops: set<ObservableProperty>): set<string>
  {
    set op | op in ops :: op.identifier
  }

  // ---------------------------------------------------------------------------
  // Grouping the constellation records by observable property
  // ---------------------------------------------------------------------------

  /** The records of `records` that belong to the property `id`, in their order. */
  function RecordsOf(records: seq<ConstellationInfo>, id: string): (group: seq<ConstellationInfo>)
    ensures forall r :: r in group <==> r in records && r.observableProperty == id
  {
    if records == [] then []
    else
      var last := records[|records| - 1];
      RecordsOf(records[..|records| - 1], id) + (if last.observableProperty == id then [last] else [])
  }

  /**
   * The records indexed by property identifier: a key exactly for each
   * property that has a record, holding that property's records in order.
   */
  function GroupByProperty(records: seq<ConstellationInfo>): (groups: map<string, seq<ConstellationInfo>>)
    ensures forall id :: id in groups <==> RecordsOf(records, id) != []
    ensures forall id :: id in groups ==> groups[id] == RecordsOf(records, id)
  {
    if records == [] then map[]
    else
      var last := records[|records| - 1];
      var groups := GroupByProperty(records[..|records| - 1]);
      GroupStep(records, groups);
      groups[last.observableProperty := (if last.observableProperty in groups then groups[last.observableProperty] else []) + [last]]
  }

  /** Appending the last record to its property's group keeps the grouping exact. */
  lemma GroupStep(records: seq<ConstellationInfo>, groups: map<string, seq<ConstellationInfo>>)
    requires records != []
    requires forall id :: id in groups <==> RecordsOf(records[..|records| - 1], id) != []
    requires forall id :: id in groups ==> groups[id] == RecordsOf(records[..|records| - 1], id)
    ensures var last := records[|records| - 1];
      var r := groups[last.observableProperty := (if last.observableProperty in groups then groups[last.observableProperty] else []) + [last]];
      && (forall id :: id in r <==> RecordsOf(records, id) != [])
      && (forall id :: id in r ==> r[id] == RecordsOf(records, id))
  {
  }

  /** The distinct offering identifiers of a group of records. */
  function OfferingIdentifiers(group: seq<ConstellationInfo>): set<string>
  {
    set r | r in group :: r.offering
  }

  /** The distinct procedure identifiers of a group of records. */
  function ProcedureIdentifiers(group: seq<ConstellationInfo>): set<string>
  {
    set r | r in group :: r.procedure
  }

  // ---------------------------------------------------------------------------
  // The bulk path, specified on the set of properties visited so far
  // ---------------------------------------------------------------------------

  /** The property gets its own offerings and procedures: it is not a hidden child and has a non-empty group. */
  predicate Associated(op: ObservableProperty, groups: map<string, seq<ConstellationInfo>>)
  {
    !op.hiddenChild && op.identifier in groups && |groups[op.identifier]| > 0
  }

  /** (child, parent) pairs of the parents in `d`. */
  function ChildToParent(h: Hierarchy, d: set<ObservableProperty>): set<(string, string)>
    requires d <= h.Keys
  {
    set p, c | p in d && c in h[p] :: (c.identifier, p.identifier)
  }

  /** (parent, child) pairs of the parents in `d`. */
  function ParentToChild(h: Hierarchy, d: set<ObservableProperty>): set<(string, string)>
    requires d <= h.Keys
  {
    set p, c | p in d && c in h[p] :: (p.identifier, c.identifier)
  }

  /** The names of the properties in `d` that have one, by identifier. */
  function NamesOf(d: set<ObservableProperty>): map<string, string>
    requires UniqueIdentifiers(d)
  {
    map op | op in d && op.IsSetName() :: op.identifier := op.name.value
  }

  /** The offerings of the associated properties in `d`, by identifier. */
  function OfferingsOf(d: set<ObservableProperty>, groups: map<string, seq<ConstellationInfo>>): map<string, set<string>>
    requires UniqueIdentifiers(d)
  {
    map op | op in d && Associated(op, groups) :: op.identifier := OfferingIdentifiers(groups[op.identifier])
  }

  /** The procedures of the associated properties in `d`, by identifier. */
  function ProceduresOf(d: set<ObservableProperty>, groups: map<string, seq<ConstellationInfo>>): map<string, set<string>>
    requires UniqueIdentifiers(d)
  {
    map op | op in d && Associated(op, groups) :: op.identifier := ProcedureIdentifiers(groups[op.identifier])
  }

  /** The identifiers of the properties in `d` that have children. */
  function ParentsIn(h: Hierarchy, d: set<ObservableProperty>): set<string>
    requires d <= h.Keys
  {
    set op | op in d && h[op] != {} :: op.identifier
  }

  /** (child, parent) pairs linking each of `children` to `parent`. */
  function UpLinks(children: set<ObservableProperty>, parent: string): set<(string, string)>
  {
    set c | c in children :: (c.identifier, parent)
  }

  /** (parent, child) pairs linking `parent` to each of `children`. */
  function DownLinks(parent: string, children: set<ObservableProperty>): set<(string, string)>
  {
    set c | c in children :: (parent, c.identifier)
  }

  /** Linking one more child is one more pair of AddTo calls. */
  lemma LinkChildStep(s: CacheState, done: set<ObservableProperty>, child: ObservableProperty, parent: string)
    ensures AddLinks(s.compositesOf, UpLinks(done + {child}, parent))
         == AddTo(AddLinks(s.compositesOf, UpLinks(done, parent)), child.identifier, parent)
    ensures AddLinks(s.membersOf, DownLinks(parent, done + {child}))
         == AddTo(AddLinks(s.membersOf, DownLinks(parent, done)), parent, child.identifier)
  {
    assert UpLinks(done + {child}, parent) == UpLinks(done, parent) + {(child.identifier, parent)};
    assert DownLinks(parent, done + {child}) == DownLinks(parent, done) + {(parent, child.identifier)};
    AddLinksInsert(s.compositesOf, UpLinks(done, parent), child.identifier, parent);
    AddLinksInsert(s.membersOf, DownLinks(parent, done), parent, child.identifier);
  }

  /** Taking one more child out of the children still to link. */
  lemma LinkRestStep(s: CacheState, children: set<ObservableProperty>, rest: set<ObservableProperty>, child: ObservableProperty, parent: string)
    requires child in rest && rest <= children
    ensures AddLinks(s.compositesOf, UpLinks(children - (rest - {child}), parent))
         == AddTo(AddLinks(s.compositesOf, UpLinks(children - rest, parent)), child.identifier, parent)
    ensures AddLinks(s.membersOf, DownLinks(parent, children - (rest - {child})))
         == AddTo(AddLinks(s.membersOf, DownLinks(parent, children - rest)), parent, child.identifier)
  {
    assert children - (rest - {child}) == (children - rest) + {child};
    LinkChildStep(s, children - rest, child, parent);
  }

  /**
   * The cache after the bulk path has visited the properties `d`, starting
   * from `s`. Independent of the order of the visits.
   */
  function BulkUpdate(s: CacheState, h: Hierarchy, groups: map<string, seq<ConstellationInfo>>, d: set<ObservableProperty>): CacheState
    requires d <= h.Keys && UniqueIdentifiers(h.Keys)
  {
    CacheState(
      s.names + NamesOf(d),
      s.offerings + OfferingsOf(d, groups),
      s.procedures + ProceduresOf(d, groups),
      s.composites + ParentsIn(h, d),
      AddLinks(s.compositesOf, ChildToParent(h, d)),
      AddLinks(s.membersOf, ParentToChild(h, d)))
  }

  /** The cache after one iteration of the bulk loop, for the property `op`. */
  function Visit(s: CacheState, h: Hierarchy, groups: map<string, seq<ConstellationInfo>>, op: ObservableProperty): CacheState
    requires op in h
  {
    var id := op.identifier;
    var named := if op.IsSetName() then s.(names := s.names[id := op.name.value]) else s;
    var associated :=
      if Associated(op, groups)
      then named.(offerings := named.offerings[id := OfferingIdentifiers(groups[id])],
                  procedures := named.procedures[id := ProcedureIdentifiers(groups[id])])
      else named;
    if h[op] != {}
    then associated.(composites := associated.composites + {id},
                     compositesOf := AddLinks(associated.compositesOf, UpLinks(h[op], id)),
                     membersOf := AddLinks(associated.membersOf, DownLinks(id, h[op])))
    else associated
  }

  lemma NamesStep(d: set<ObservableProperty>, op: ObservableProperty)
    requires UniqueIdentifiers(d + {op})
    ensures NamesOf(d + {op}) == if op.IsSetName() then NamesOf(d)[op.identifier := op.name.value] else NamesOf(d)
  {
  }

  lemma OfferingsStep(d: set<ObservableProperty>, groups: map<string, seq<ConstellationInfo>>, op: ObservableProperty)
    requires UniqueIdentifiers(d + {op})
    ensures OfferingsOf(d + {op}, groups) ==
      if Associated(op, groups) then OfferingsOf(d, groups)[op.identifier := OfferingIdentifiers(groups[op.identifier])] else OfferingsOf(d, groups)
  {
  }

  lemma ProceduresStep(d: set<ObservableProperty>, groups: map<string, seq<ConstellationInfo>>, op: ObservableProperty)
    requires UniqueIdentifiers(d + {op})
    ensures ProceduresOf(d + {op}, groups) ==
      if Associated(op, groups) then ProceduresOf(d, groups)[op.identifier := ProcedureIdentifiers(groups[op.identifier])] else ProceduresOf(d, groups)
  {
  }

  lemma UniqueSubset(d: set<ObservableProperty>, e: set<ObservableProperty>)
    requires d <= e && UniqueIdentifiers(e)
    ensures UniqueIdentifiers(d)
  {
  }

  lemma PairsStep(h: Hierarchy, d: set<ObservableProperty>, op: ObservableProperty)
    requires d <= h.Keys && op in h
    ensures ChildToParent(h, d + {op}) == ChildToParent(h, d) + UpLinks(h[op], op.identifier)
    ensures ParentToChild(h, d + {op}) == ParentToChild(h, d) + DownLinks(op.identifier, h[op])
  {
  }

  lemma UpdateUnion<V>(a: map<string, V>, b: map<string, V>, k: string, v: V)
    ensures (a + b)[k := v] == a + b[k := v]
  {
  }

  /** Visiting no property leaves the cache as it was. */
  lemma BulkNone(s: CacheState, h: Hierarchy, groups: map<string, seq<ConstellationInfo>>)
    requires UniqueIdentifiers(h.Keys)
    ensures BulkUpdate(s, h, groups, {}) == s
  {
    AddLinksNone(s.compositesOf);
    AddLinksNone(s.membersOf);
    NothingVisited(h, groups);
    UnionNone(s.names);
    UnionNone(s.offerings);
    UnionNone(s.procedures);
  }

  lemma NothingVisited(h: Hierarchy, groups: map<string, seq<ConstellationInfo>>)
    ensures NamesOf({}) == map[] && OfferingsOf({}, groups) == map[] && ProceduresOf({}, groups) == map[]
    ensures ParentsIn(h, {}) == {} && ChildToParent(h, {}) == {} && ParentToChild(h, {}) == {}
  {
  }

  lemma UnionNone<V>(m: map<string, V>)
    ensures m + map[] == m
  {
  }

  /** Visiting one more property is one more loop iteration. */
  lemma BulkStep(s: CacheState, h: Hierarchy, groups: map<string, seq<ConstellationInfo>>, d: set<ObservableProperty>, op: ObservableProperty)
    requires d <= h.Keys && op in h && UniqueIdentifiers(h.Keys)
    ensures BulkUpdate(s, h, groups, d + {op}) == Visit(BulkUpdate(s, h, groups, d), h, groups, op)
  {
    var before := BulkUpdate(s, h, groups, d);
    var after := BulkUpdate(s, h, groups, d + {op});
    var visited := Visit(before, h, groups, op);
    var id := op.identifier;
    UniqueSubset(d + {op}, h.Keys);
    UniqueSubset(d, h.Keys);
    NamesStep(d, op);
    OfferingsStep(d, groups, op);
    ProceduresStep(d, groups, op);
    PairsStep(h, d, op);
    if op.IsSetName() {
      UpdateUnion(s.names, NamesOf(d), id, op.name.value);
    }
    assert after.names == visited.names;
    if Associated(op, groups) {
      UpdateUnion(s.offerings, OfferingsOf(d, groups), id, OfferingIdentifiers(groups[id]));
      UpdateUnion(s.procedures, ProceduresOf(d, groups), id, ProcedureIdentifiers(groups[id]));
    }
    assert after.offerings == visited.offerings;
    assert after.procedures == visited.procedures;
    LinksStep(s, h, d, op, before, visited);
  }

  lemma LinksStep(s: CacheState, h: Hierarchy, d: set<ObservableProperty>, op: ObservableProperty, before: CacheState, visited: CacheState)
    requires d <= h.Keys && op in h
    requires before.composites == s.composites + ParentsIn(h, d)
    requires before.compositesOf == AddLinks(s.compositesOf, ChildToParent(h, d))
    requires before.membersOf == AddLinks(s.membersOf, ParentToChild(h, d))
    requires h[op] == {} ==> visited.composites == before.composites && visited.compositesOf == before.compositesOf && visited.membersOf == before.membersOf
    requires h[op] != {} ==>
      && visited.composites == before.composites + {op.identifier}
      && visited.compositesOf == AddLinks(before.compositesOf, UpLinks(h[op], op.identifier))
      && visited.membersOf == AddLinks(before.membersOf, DownLinks(op.identifier, h[op]))
    ensures visited.composites == s.composites + ParentsIn(h, d + {op})
    ensures visited.compositesOf == AddLinks(s.compositesOf, ChildToParent(h, d + {op}))
    ensures visited.membersOf == AddLinks(s.membersOf, ParentToChild(h, d + {op}))
  {
    ParentsStep(h, d, op);
    UpStep(s.compositesOf, h, d, op);
    DownStep(s.membersOf, h, d, op);
    if h[op] == {} {
      AddLinksNone(before.compositesOf);
      AddLinksNone(before.membersOf);
    }
  }

  lemma ParentsStep(h: Hierarchy, d: set<ObservableProperty>, op: ObservableProperty)
    requires d <= h.Keys && op in h
    ensures ParentsIn(h, d + {op}) == ParentsIn(h, d) + (if h[op] != {} then {op.identifier} else {})
  {
  }

  lemma UpStep(m: map<string, set<string>>, h: Hierarchy, d: set<ObservableProperty>, op: ObservableProperty)
    requires d <= h.Keys && op in h
    ensures h[op] == {} ==> UpLinks(h[op], op.identifier) == {}
    ensures AddLinks(m, ChildToParent(h, d + {op})) == AddLinks(AddLinks(m, ChildToParent(h, d)), UpLinks(h[op], op.identifier))
  {
    PairsStep(h, d, op);
    AddLinksUnion(m, ChildToParent(h, d), UpLinks(h[op], op.identifier));
  }

  lemma DownStep(m: map<string, set<string>>, h: Hierarchy, d: set<ObservableProperty>, op: ObservableProperty)
    requires d <= h.Keys && op in h
    ensures h[op] == {} ==> DownLinks(op.identifier, h[op]) == {}
    ensures AddLinks(m, ParentToChild(h, d + {op})) == AddLinks(AddLinks(m, ParentToChild(h, d)), DownLinks(op.identifier, h[op]))
  {
    PairsStep(h, d, op);
    AddLinksUnion(m, ParentToChild(h, d), DownLinks(op.identifier, h[op]));
  }


  // ---------------------------------------------------------------------------
  // The fallback path
  // ---------------------------------------------------------------------------

  /** The sets returned by the successful lookups among `ids`, by identifier. */
  function Successful(ids: set<string>, lookup: string -> Lookup): map<string, set<string>>
  {
    map id | id in ids && lookup(id).Ok? :: lookup(id).value
  }

  /**
   * The cache after the fallback path has looked up the properties `ids`,
   * starting from `s`. Only offerings and procedures are written.
   */
  function FallbackUpdate(s: CacheState, ids: set<string>, offeringLookup: string -> Lookup, procedureLookup: string -> Lookup): (r: CacheState)
    ensures r.names == s.names && r.composites == s.composites
    ensures r.compositesOf == s.compositesOf && r.membersOf == s.membersOf
  {
    s.(offerings := s.offerings + Successful(ids, offeringLookup),
       procedures := s.procedures + Successful(ids, procedureLookup))
  }

  /** The cache after the two lookups of one property: each successful lookup overwrites its set. */
  function LookUpOne(s: CacheState, id: string, offeringLookup: string -> Lookup, procedureLookup: string -> Lookup): CacheState
  {
    var withOfferings := if offeringLookup(id).Ok? then s.(offerings := s.offerings[id := offeringLookup(id).value]) else s;
    if procedureLookup(id).Ok? then withOfferings.(procedures := withOfferings.procedures[id := procedureLookup(id).value]) else withOfferings
  }

  lemma SuccessfulStep(ids: set<string>, id: string, lookup: string -> Lookup)
    ensures Successful(ids + {id}, lookup) ==
      if lookup(id).Ok? then Successful(ids, lookup)[id := lookup(id).value] else Successful(ids, lookup)
  {
    var after := Successful(ids + {id}, lookup);
    var stepped := if lookup(id).Ok? then Successful(ids, lookup)[id := lookup(id).value] else Successful(ids, lookup);
    assert after.Keys == stepped.Keys;
    forall k | k in after ensures after[k] == stepped[k] {
    }
  }

  /** Looking up no property leaves the cache as it was. */
  lemma FallbackNone(s: CacheState, offeringLookup: string -> Lookup, procedureLookup: string -> Lookup)
    ensures FallbackUpdate(s, Identifiers({}), offeringLookup, procedureLookup) == s
  {
    assert Identifiers({}) == {};
    assert Successful({}, offeringLookup) == map[] && Successful({}, procedureLookup) == map[];
  }

  lemma IdentifiersStep(d: set<ObservableProperty>, op: ObservableProperty)
    ensures Identifiers(d + {op}) == Identifiers(d) + {op.identifier}
  {
  }

  /** Looking up one more property is one more loop iteration. */
  lemma FallbackStep(s: CacheState, ids: set<string>, id: string, offeringLookup: string -> Lookup, procedureLookup: string -> Lookup)
    ensures FallbackUpdate(s, ids + {id}, offeringLookup, procedureLookup)
         == LookUpOne(FallbackUpdate(s, ids, offeringLookup, procedureLookup), id, offeringLookup, procedureLookup)
  {
    SuccessfulStep(ids, id, offeringLookup);
    SuccessfulStep(ids, id, procedureLookup);
    if offeringLookup(id).Ok? {
      UpdateUnion(s.offerings, Successful(ids, offeringLookup), id, offeringLookup(id).value);
    }
    if procedureLookup(id).Ok? {
      UpdateUnion(s.procedures, Successful(ids, procedureLookup), id, procedureLookup(id).value);
    }
  }

  /** The errors one property's two lookups add: the offering failure first, then the procedure failure. */
  function PropertyErrors(id: string, offeringLookup: string -> Lookup, procedureLookup: string -> Lookup): seq<OwsExceptionReport>
  {
    (if offeringLookup(id).Err? then [offeringLookup(id).error] else [])
    + (if procedureLookup(id).Err? then [procedureLookup(id).error] else [])
  }

  /** The errors the fallback path appends when it visits `keys` in this order. */
  function FallbackErrors(keys: seq<ObservableProperty>, offeringLookup: string -> Lookup, procedureLookup: string -> Lookup): seq<OwsExceptionReport>
  {
    if keys == [] then []
    else FallbackErrors(keys[..|keys| - 1], offeringLookup, procedureLookup)
         + PropertyErrors(keys[|keys| - 1].identifier, offeringLookup, procedureLookup)
  }

  lemma FallbackErrorsStep(keys: seq<ObservableProperty>, i: nat, offeringLookup: string -> Lookup, procedureLookup: string -> Lookup)
    requires i < |keys|
    ensures FallbackErrors(keys[..i + 1], offeringLookup, procedureLookup)
         == FallbackErrors(keys[..i], offeringLookup, procedureLookup) + PropertyErrors(keys[i].identifier, offeringLookup, procedureLookup)
  {
    assert keys[..i + 1][..i] == keys[..i];
  }

  // ---------------------------------------------------------------------------
  // Properties of the bulk path
  // ---------------------------------------------------------------------------

  /** Every property with a name gets it recorded, hidden child or parent alike. */
  lemma BulkRecordsNames(s: CacheState, h: Hierarchy, groups: map<string, seq<ConstellationInfo>>)
    requires UniqueIdentifiers(h.Keys)
    ensures forall op :: op in h && op.IsSetName() ==>
      var r := BulkUpdate(s, h, groups, h.Keys);
      op.identifier in r.names && r.names[op.identifier] == op.name.value
  {
    forall op | op in h && op.IsSetName()
      ensures op.identifier in NamesOf(h.Keys) && NamesOf(h.Keys)[op.identifier] == op.name.value
    {
    }
  }

  /** A hidden child gets no offerings and no procedures under its own identifier. */
  lemma BulkSkipsHiddenChildren(s: CacheState, h: Hierarchy, groups: map<string, seq<ConstellationInfo>>, op: ObservableProperty)
    requires UniqueIdentifiers(h.Keys) && op in h && op.hiddenChild
    ensures UnchangedAt(BulkUpdate(s, h, groups, h.Keys).offerings, s.offerings, op.identifier)
    ensures UnchangedAt(BulkUpdate(s, h, groups, h.Keys).procedures, s.procedures, op.identifier)
  {
    assert op.identifier !in OfferingsOf(h.Keys, groups);
    assert op.identifier !in ProceduresOf(h.Keys, groups);
  }

  /** Some record is about the property `id`. */
  predicate HasRecords(records: seq<ConstellationInfo>, id: string)
  {
    exists x :: x in records && x.observableProperty == id
  }

  /** The offerings named by the records about `id`, in any order. */
  function RecordOfferings(records: seq<ConstellationInfo>, id: string): set<string>
  {
    set x | x in records && x.observableProperty == id :: x.offering
  }

  /** The procedures named by the records about `id`, in any order. */
  function RecordProcedures(records: seq<ConstellationInfo>, id: string): set<string>
  {
    set x | x in records && x.observableProperty == id :: x.procedure
  }

  lemma {:induction false} NoRecords(records: seq<ConstellationInfo>, id: string)
    requires forall x :: x in records ==> x.observableProperty != id
    ensures RecordsOf(records, id) == []
  {
    if records != [] {
      var init := records[..|records| - 1];
      assert forall x :: x in init ==> x in records;
      NoRecords(init, id);
    }
  }

  lemma RecordFields(records: seq<ConstellationInfo>, id: string)
    ensures OfferingIdentifiers(RecordsOf(records, id)) == RecordOfferings(records, id)
    ensures ProcedureIdentifiers(RecordsOf(records, id)) == RecordProcedures(records, id)
  {
  }

  /**
   * A visible property gets exactly the offerings and procedures of its own
   * records; a property without records gets no write.
   */
  lemma BulkAssociationsFromRecords(s: CacheState, h: Hierarchy, records: seq<ConstellationInfo>, op: ObservableProperty)
    requires UniqueIdentifiers(h.Keys) && op in h && !op.hiddenChild
    ensures var r := BulkUpdate(s, h, GroupByProperty(records), h.Keys);
      var id := op.identifier;
      if HasRecords(records, id) then
        && id in r.offerings && r.offerings[id] == RecordOfferings(records, id)
        && id in r.procedures && r.procedures[id] == RecordProcedures(records, id)
      else
        UnchangedAt(r.offerings, s.offerings, id) && UnchangedAt(r.procedures, s.procedures, id)
  {
    var groups := GroupByProperty(records);
    var id := op.identifier;
    RecordFields(records, id);
    if HasRecords(records, id) {
      var x :| x in records && x.observableProperty == id;
      assert x in RecordsOf(records, id);
      assert Associated(op, groups);
      assert OfferingsOf(h.Keys, groups)[id] == OfferingIdentifiers(groups[id]);
      assert ProceduresOf(h.Keys, groups)[id] == ProcedureIdentifiers(groups[id]);
    } else {
      NoRecords(records, id);
      assert id !in groups;
      assert id !in OfferingsOf(h.Keys, groups);
      assert id !in ProceduresOf(h.Keys, groups);
    }
  }

  /** The bulk path writes offerings and procedures only under identifiers of the hierarchy. */
  lemma BulkWritesOnlyKnownProperties(s: CacheState, h: Hierarchy, groups: map<string, seq<ConstellationInfo>>)
    requires UniqueIdentifiers(h.Keys)
    ensures BulkUpdate(s, h, groups, h.Keys).offerings.Keys <= s.offerings.Keys + Identifiers(h.Keys)
    ensures BulkUpdate(s, h, groups, h.Keys).procedures.Keys <= s.procedures.Keys + Identifiers(h.Keys)
  {
  }

  /**
   * An identifier is a composite phenomenon afterwards exactly when it was
   * one before or names a property whose own child set is non-empty.
   */
  lemma BulkComposites(s: CacheState, h: Hierarchy, groups: map<string, seq<ConstellationInfo>>)
    requires UniqueIdentifiers(h.Keys)
    ensures forall id :: id in BulkUpdate(s, h, groups, h.Keys).composites <==>
      id in s.composites || exists op :: op in h && op.identifier == id && h[op] != {}
  {
  }

  /** A leaf stays out of the composite phenomena, even when it is some property's child. */
  lemma BulkLeafIsNotComposite(s: CacheState, h: Hierarchy, groups: map<string, seq<ConstellationInfo>>, op: ObservableProperty)
    requires UniqueIdentifiers(h.Keys) && op in h && h[op] == {} && op.identifier !in s.composites
    ensures op.identifier !in BulkUpdate(s, h, groups, h.Keys).composites
  {
    BulkComposites(s, h, groups);
  }

  /**
   * Every (parent, child) pair of the hierarchy is linked in both directions,
   * and every new link comes from such a pair.
   */
  lemma BulkLinks(s: CacheState, h: Hierarchy, groups: map<string, seq<ConstellationInfo>>)
    requires UniqueIdentifiers(h.Keys)
    ensures var r := BulkUpdate(s, h, groups, h.Keys);
      forall p, c :: p in h && c in h[p] ==>
        p.identifier in Members(r.compositesOf, c.identifier) && c.identifier in Members(r.membersOf, p.identifier)
    ensures var r := BulkUpdate(s, h, groups, h.Keys);
      forall k, v :: v in Members(r.membersOf, k) ==>
        v in Members(s.membersOf, k) || exists p, c :: p in h && c in h[p] && p.identifier == k && c.identifier == v
    ensures var r := BulkUpdate(s, h, groups, h.Keys);
      forall k, v :: v in Members(r.compositesOf, k) ==>
        v in Members(s.compositesOf, k) || exists p, c :: p in h && c in h[p] && c.identifier == k && p.identifier == v
  {
    var r := BulkUpdate(s, h, groups, h.Keys);
    forall p, c | p in h && c in h[p]
      ensures p.identifier in Members(r.compositesOf, c.identifier) && c.identifier in Members(r.membersOf, p.identifier)
    {
      assert (c.identifier, p.identifier) in ChildToParent(h, h.Keys);
      assert p.identifier in LinkedTo(ChildToParent(h, h.Keys), c.identifier);
      assert (p.identifier, c.identifier) in ParentToChild(h, h.Keys);
      assert c.identifier in LinkedTo(ParentToChild(h, h.Keys), p.identifier);
    }
    forall k, v | v in Members(r.membersOf, k)
      ensures v in Members(s.membersOf, k) || exists p, c :: p in h && c in h[p] && p.identifier == k && c.identifier == v
    {
      if v !in Members(s.membersOf, k) {
        assert v in LinkedTo(ParentToChild(h, h.Keys), k);
        assert (k, v) in ParentToChild(h, h.Keys);
      }
    }
    forall k, v | v in Members(r.compositesOf, k)
      ensures v in Members(s.compositesOf, k) || exists p, c :: p in h && c in h[p] && c.identifier == k && p.identifier == v
    {
      if v !in Members(s.compositesOf, k) {
        assert v in LinkedTo(ChildToParent(h, h.Keys), k);
        assert (k, v) in ChildToParent(h, h.Keys);
      }
    }
  }

  lemma UnionTwice<V>(a: map<string, V>, b: map<string, V>)
    ensures (a + b) + b == a + b
  {
  }

  /** Running the bulk path twice on an unchanged store leaves the cache as one run does. */
  lemma BulkIdempotent(s: CacheState, h: Hierarchy, groups: map<string, seq<ConstellationInfo>>)
    requires UniqueIdentifiers(h.Keys)
    ensures BulkUpdate(BulkUpdate(s, h, groups, h.Keys), h, groups, h.Keys) == BulkUpdate(s, h, groups, h.Keys)
  {
    UnionTwice(s.names, NamesOf(h.Keys));
    UnionTwice(s.offerings, OfferingsOf(h.Keys, groups));
    UnionTwice(s.procedures, ProceduresOf(h.Keys, groups));
    AddLinksUnion(s.compositesOf, ChildToParent(h, h.Keys), ChildToParent(h, h.Keys));
    AddLinksUnion(s.membersOf, ParentToChild(h, h.Keys), ParentToChild(h, h.Keys));
    assert ChildToParent(h, h.Keys) + ChildToParent(h, h.Keys) == ChildToParent(h, h.Keys);
    assert ParentToChild(h, h.Keys) + ParentToChild(h, h.Keys) == ParentToChild(h, h.Keys);
  }

  // ---------------------------------------------------------------------------
  // Properties of the fallback path
  // ---------------------------------------------------------------------------

  /**
   * The two lookups of a property are independent: each successful lookup is
   * written whatever the other one did, a failed one leaves its set as it
   * was and contributes exactly one error.
   */
  lemma FallbackIsolation(s: CacheState, ids: set<string>, offeringLookup: string -> Lookup, procedureLookup: string -> Lookup, id: string)
    requires id in ids
    ensures var r := FallbackUpdate(s, ids, offeringLookup, procedureLookup);
      && (offeringLookup(id).Ok? ==> id in r.offerings && r.offerings[id] == offeringLookup(id).value)
      && (offeringLookup(id).Err? ==> UnchangedAt(r.offerings, s.offerings, id))
      && (procedureLookup(id).Ok? ==> id in r.procedures && r.procedures[id] == procedureLookup(id).value)
      && (procedureLookup(id).Err? ==> UnchangedAt(r.procedures, s.procedures, id))
    ensures offeringLookup(id).Err? && procedureLookup(id).Ok? ==>
      PropertyErrors(id, offeringLookup, procedureLookup) == [offeringLookup(id).error]
    ensures offeringLookup(id).Ok? && procedureLookup(id).Err? ==>
      PropertyErrors(id, offeringLookup, procedureLookup) == [procedureLookup(id).error]
  {
  }

  /** Each property adds at most two errors, and none exactly when all its lookups succeed. */
  lemma {:induction false} FallbackErrorsBound(keys: seq<ObservableProperty>, offeringLookup: string -> Lookup, procedureLookup: string -> Lookup)
    ensures |FallbackErrors(keys, offeringLookup, procedureLookup)| <= 2 * |keys|
    ensures FallbackErrors(keys, offeringLookup, procedureLookup) == [] <==>
      forall op :: op in keys ==> offeringLookup(op.identifier).Ok? && procedureLookup(op.identifier).Ok?
  {
    if keys != [] {
      var init := keys[..|keys| - 1];
      FallbackErrorsBound(init, offeringLookup, procedureLookup);
      assert keys == init + [keys[|keys| - 1]];
    }
  }

  /** The errors are exactly the failures of the lookups, nothing else. */
  lemma {:induction false} FallbackErrorsAreFailures(keys: seq<ObservableProperty>, offeringLookup: string -> Lookup, procedureLookup: string -> Lookup)
    ensures forall e :: e in FallbackErrors(keys, offeringLookup, procedureLookup) <==>
      exists op :: op in keys && (offeringLookup(op.identifier) == Err(e) || procedureLookup(op.identifier) == Err(e))
  {
    if keys != [] {
      var init := keys[..|keys| - 1];
      var last := keys[|keys| - 1];
      FallbackErrorsAreFailures(init, offeringLookup, procedureLookup);
      assert keys == init + [last];
      forall e | e in FallbackErrors(keys, offeringLookup, procedureLookup)
        ensures exists op :: op in keys && (offeringLookup(op.identifier) == Err(e) || procedureLookup(op.identifier) == Err(e))
      {
        if e !in FallbackErrors(init, offeringLookup, procedureLookup) {
          assert offeringLookup(last.identifier) == Err(e) || procedureLookup(last.identifier) == Err(e);
        }
      }
    }
  }

  lemma {:induction false} DistinctKeySet(keys: seq<ObservableProperty>)
    requires forall i, j :: 0 <= i < j < |keys| ==> keys[i] != keys[j]
    ensures |KeySet(keys)| == |keys|
  {
    if keys != [] {
      var init := keys[..|keys| - 1];
      var last := keys[|keys| - 1];
      forall i, j | 0 <= i < j < |init| ensures init[i] != init[j] {
        assert init[i] == keys[i] && init[j] == keys[j];
      }
      DistinctKeySet(init);
      forall k | 0 <= k < |init| ensures init[k] != last {
        assert init[k] == keys[k];
      }
      assert keys == init + [last];
      assert KeySet(keys) == KeySet(init) + {last};
      assert last !in init;
    }
  }

  /** One fallback pass adds at most two errors per property of the hierarchy. */
  lemma FallbackErrorsPerProperty(h: Hierarchy, keys: seq<ObservableProperty>, offeringLookup: string -> Lookup, procedureLookup: string -> Lookup)
    requires EnumeratesKeys(h, keys)
    ensures |FallbackErrors(keys, offeringLookup, procedureLookup)| <= 2 * |h|
  {
    FallbackErrorsBound(keys, offeringLookup, procedureLookup);
    DistinctKeySet(keys);
    assert KeySet(keys) == h.Keys;
  }

  /**
   * When no property is a hidden child, every property has records, and the
   * lookups return exactly what the records say, both paths write the same
   * offerings and procedures.
   */
  lemma StrategiesAgree(s: CacheState, h: Hierarchy, records: seq<ConstellationInfo>,
                        offeringLookup: string -> Lookup, procedureLookup: string -> Lookup)
    requires UniqueIdentifiers(h.Keys)
    requires forall op :: op in h ==> !op.hiddenChild && HasRecords(records, op.identifier)
    requires forall op :: op in h ==>
      && offeringLookup(op.identifier) == Ok(RecordOfferings(records, op.identifier))
      && procedureLookup(op.identifier) == Ok(RecordProcedures(records, op.identifier))
    ensures var bulk := BulkUpdate(s, h, GroupByProperty(records), h.Keys);
      var fallback := FallbackUpdate(s, Identifiers(h.Keys), offeringLookup, procedureLookup);
      bulk.offerings == fallback.offerings && bulk.procedures == fallback.procedures
  {
    GroupsMatchLookups(h, records, offeringLookup, procedureLookup);
    AgreeOnMatchingGroups(s, h, GroupByProperty(records), offeringLookup, procedureLookup);
  }

  lemma AgreeOnMatchingGroups(s: CacheState, h: Hierarchy, groups: map<string, seq<ConstellationInfo>>,
                              offeringLookup: string -> Lookup, procedureLookup: string -> Lookup)
    requires UniqueIdentifiers(h.Keys)
    requires forall op :: op in h ==>
      && Associated(op, groups)
      && offeringLookup(op.identifier) == Ok(OfferingIdentifiers(groups[op.identifier]))
      && procedureLookup(op.identifier) == Ok(ProcedureIdentifiers(groups[op.identifier]))
    ensures BulkUpdate(s, h, groups, h.Keys).offerings == FallbackUpdate(s, Identifiers(h.Keys), offeringLookup, procedureLookup).offerings
    ensures BulkUpdate(s, h, groups, h.Keys).procedures == FallbackUpdate(s, Identifiers(h.Keys), offeringLookup, procedureLookup).procedures
  {
    OfferingsAgree(h.Keys, groups, offeringLookup);
    ProceduresAgree(h.Keys, groups, procedureLookup);
  }

  lemma GroupsMatchLookups(h: Hierarchy, records: seq<ConstellationInfo>,
                           offeringLookup: string -> Lookup, procedureLookup: string -> Lookup)
    requires forall op :: op in h ==> !op.hiddenChild && HasRecords(records, op.identifier)
    requires forall op :: op in h ==>
      && offeringLookup(op.identifier) == Ok(RecordOfferings(records, op.identifier))
      && procedureLookup(op.identifier) == Ok(RecordProcedures(records, op.identifier))
    ensures forall op :: op in h ==>
      && Associated(op, GroupByProperty(records))
      && offeringLookup(op.identifier) == Ok(OfferingIdentifiers(GroupByProperty(records)[op.identifier]))
      && procedureLookup(op.identifier) == Ok(ProcedureIdentifiers(GroupByProperty(records)[op.identifier]))
  {
    forall op | op in h
      ensures Associated(op, GroupByProperty(records))
      ensures offeringLookup(op.identifier) == Ok(OfferingIdentifiers(GroupByProperty(records)[op.identifier]))
      ensures procedureLookup(op.identifier) == Ok(ProcedureIdentifiers(GroupByProperty(records)[op.identifier]))
    {
      GroupOf(records, op);
    }
  }

  lemma GroupOf(records: seq<ConstellationInfo>, op: ObservableProperty)
    requires !op.hiddenChild && HasRecords(records, op.identifier)
    ensures Associated(op, GroupByProperty(records))
    ensures OfferingIdentifiers(GroupByProperty(records)[op.identifier]) == RecordOfferings(records, op.identifier)
    ensures ProcedureIdentifiers(GroupByProperty(records)[op.identifier]) == RecordProcedures(records, op.identifier)
  {
    var x :| x in records && x.observableProperty == op.identifier;
    assert x in RecordsOf(records, op.identifier);
    RecordFields(records, op.identifier);
  }

  lemma OfferingsAgree(d: set<ObservableProperty>, groups: map<string, seq<ConstellationInfo>>, lookup: string -> Lookup)
    requires UniqueIdentifiers(d)
    requires forall op :: op in d ==> Associated(op, groups) && lookup(op.identifier) == Ok(OfferingIdentifiers(groups[op.identifier]))
    ensures OfferingsOf(d, groups) == Successful(Identifiers(d), lookup)
  {
    var a := OfferingsOf(d, groups);
    var b := Successful(Identifiers(d), lookup);
    forall id | id in b
      ensures id in a
    {
      var op :| op in d && op.identifier == id;
    }
    assert a.Keys == b.Keys;
    forall id | id in a
      ensures a[id] == b[id]
    {
      var op :| op in d && op.identifier == id && Associated(op, groups);
    }
  }

  lemma ProceduresAgree(d: set<ObservableProperty>, groups: map<string, seq<ConstellationInfo>>, lookup: string -> Lookup)
    requires UniqueIdentifiers(d)
    requires forall op :: op in d ==> Associated(op, groups) && lookup(op.identifier) == Ok(ProcedureIdentifiers(groups[op.identifier]))
    ensures ProceduresOf(d, groups) == Successful(Identifiers(d), lookup)
  {
    var a := ProceduresOf(d, groups);
    var b := Successful(Identifiers(d), lookup);
    forall id | id in b
      ensures id in a
    {
      var op :| op in d && op.identifier == id;
    }
    assert a.Keys == b.Keys;
    forall id | id in a
      ensures a[id] == b[id]
    {
      var op :| op in d && op.identifier == id && Associated(op, groups);
    }
  }

  // A worked example: the hierarchy {A: {B, C}, B: {}, C: {}} with the records
  // (A, p1, o1) and (B, p2, o1), written into an empty cache.

  const ExampleA := ObservableProperty("A", None, false)
  const ExampleB := ObservableProperty("B", None, false)
  const ExampleC := ObservableProperty("C", None, false)
  const ExampleHierarchy: Hierarchy := map[ExampleA := {ExampleB, ExampleC}, ExampleB := {}, ExampleC := {}]
  const ExampleRecords := [ConstellationInfo("A", "p1", "o1"), ConstellationInfo("B", "p2", "o1")]
  const EmptyCache := CacheState(map[], map[], map[], {}, map[], map[])

  lemma ExampleUnique()
    ensures ExampleHierarchy.Keys == {ExampleA, ExampleB, ExampleC}
    ensures UniqueIdentifiers(ExampleHierarchy.Keys)
  {
  }

  lemma ExampleRecordSets()
    ensures HasRecords(ExampleRecords, "A") && HasRecords(ExampleRecords, "B") && !HasRecords(ExampleRecords, "C")
    ensures RecordOfferings(ExampleRecords, "A") == {"o1"} && RecordProcedures(ExampleRecords, "A") == {"p1"}
    ensures RecordOfferings(ExampleRecords, "B") == {"o1"} && RecordProcedures(ExampleRecords, "B") == {"p2"}
  {
    assert ExampleRecords[0] in ExampleRecords;
    assert ExampleRecords[1] in ExampleRecords;
  }

  /** Only A, the one property with children, becomes a composite phenomenon. */
  lemma ExampleComposites(groups: map<string, seq<ConstellationInfo>>)
    ensures UniqueIdentifiers(ExampleHierarchy.Keys)
    ensures BulkUpdate(EmptyCache, ExampleHierarchy, groups, ExampleHierarchy.Keys).composites == {"A"}
  {
    ExampleUnique();
    ExampleParents();
  }

  lemma ExampleParents()
    ensures ParentsIn(ExampleHierarchy, ExampleHierarchy.Keys) == {"A"}
  {
    ExampleUnique();
    assert ExampleHierarchy[ExampleA] != {};
    assert ExampleHierarchy[ExampleB] == {} && ExampleHierarchy[ExampleC] == {};
  }

  lemma ExamplePairs()
    ensures ParentToChild(ExampleHierarchy, ExampleHierarchy.Keys) == {("A", "B"), ("A", "C")}
    ensures ChildToParent(ExampleHierarchy, ExampleHierarchy.Keys) == {("B", "A"), ("C", "A")}
  {
    ExampleUnique();
    assert ExampleHierarchy[ExampleA] == {ExampleB, ExampleC};
    assert ExampleHierarchy[ExampleB] == {} && ExampleHierarchy[ExampleC] == {};
  }

  /** A is linked to its children B and C, and each of them back to A. */
  lemma ExampleLinks(groups: map<string, seq<ConstellationInfo>>)
    ensures UniqueIdentifiers(ExampleHierarchy.Keys)
    ensures Members(BulkUpdate(EmptyCache, ExampleHierarchy, groups, ExampleHierarchy.Keys).membersOf, "A") == {"B", "C"}
    ensures Members(BulkUpdate(EmptyCache, ExampleHierarchy, groups, ExampleHierarchy.Keys).compositesOf, "B") == {"A"}
    ensures Members(BulkUpdate(EmptyCache, ExampleHierarchy, groups, ExampleHierarchy.Keys).compositesOf, "C") == {"A"}
  {
    ExampleUnique();
    ExamplePairs();
    ExampleLinkedTo();
    var r := BulkUpdate(EmptyCache, ExampleHierarchy, groups, ExampleHierarchy.Keys);
    assert r.membersOf == AddLinks(map[], {("A", "B"), ("A", "C")});
    assert r.compositesOf == AddLinks(map[], {("B", "A"), ("C", "A")});
    FreshLinks({("A", "B"), ("A", "C")}, "A");
    FreshLinks({("B", "A"), ("C", "A")}, "B");
    FreshLinks({("B", "A"), ("C", "A")}, "C");
  }

  /** A and B get the offerings and procedures of their own records; C, without records, gets none. */
  lemma ExampleAssociations()
    ensures UniqueIdentifiers(ExampleHierarchy.Keys)
    ensures BulkUpdate(EmptyCache, ExampleHierarchy, GroupByProperty(ExampleRecords), ExampleHierarchy.Keys).offerings
      == map["A" := {"o1"}, "B" := {"o1"}]
    ensures BulkUpdate(EmptyCache, ExampleHierarchy, GroupByProperty(ExampleRecords), ExampleHierarchy.Keys).procedures
      == map["A" := {"p1"}, "B" := {"p2"}]
  {
    ExampleRecordSets();
    AssociationsFromExampleSets(ExampleRecords);
  }

  lemma AssociationsFromExampleSets(records: seq<ConstellationInfo>)
    requires HasRecords(records, "A") && HasRecords(records, "B") && !HasRecords(records, "C")
    requires RecordOfferings(records, "A") == {"o1"} && RecordProcedures(records, "A") == {"p1"}
    requires RecordOfferings(records, "B") == {"o1"} && RecordProcedures(records, "B") == {"p2"}
    ensures UniqueIdentifiers(ExampleHierarchy.Keys)
    ensures BulkUpdate(EmptyCache, ExampleHierarchy, GroupByProperty(records), ExampleHierarchy.Keys).offerings
      == map["A" := {"o1"}, "B" := {"o1"}]
    ensures BulkUpdate(EmptyCache, ExampleHierarchy, GroupByProperty(records), ExampleHierarchy.Keys).procedures
      == map["A" := {"p1"}, "B" := {"p2"}]
  {
    ExampleUnique();
    var groups := GroupByProperty(records);
    BulkAssociationsFromRecords(EmptyCache, ExampleHierarchy, records, ExampleA);
    BulkAssociationsFromRecords(EmptyCache, ExampleHierarchy, records, ExampleB);
    BulkAssociationsFromRecords(EmptyCache, ExampleHierarchy, records, ExampleC);
    ExampleAssociationKeys(groups);
    var r := BulkUpdate(EmptyCache, ExampleHierarchy, groups, ExampleHierarchy.Keys);
    TwoEntries(r.offerings, {"o1"}, {"o1"});
    TwoEntries(r.procedures, {"p1"}, {"p2"});
  }

  lemma ExampleAssociationKeys(groups: map<string, seq<ConstellationInfo>>)
    ensures UniqueIdentifiers(ExampleHierarchy.Keys)
    ensures BulkUpdate(EmptyCache, ExampleHierarchy, groups, ExampleHierarchy.Keys).offerings.Keys <= {"A", "B", "C"}
    ensures BulkUpdate(EmptyCache, ExampleHierarchy, groups, ExampleHierarchy.Keys).procedures.Keys <= {"A", "B", "C"}
  {
    ExampleUnique();
    assert Identifiers(ExampleHierarchy.Keys) == {"A", "B", "C"};
    BulkWritesOnlyKnownProperties(EmptyCache, ExampleHierarchy, groups);
  }

  lemma TwoEntries(m: map<string, set<string>>, x: set<string>, y: set<string>)
    requires m.Keys <= {"A", "B", "C"} && "C" !in m
    requires "A" in m && m["A"] == x && "B" in m && m["B"] == y
    ensures m == map["A" := x, "B" := y]
  {
    assert m.Keys == {"A", "B"};
  }

  lemma FreshLinks(links: set<(string, string)>, k: string)
    ensures Members(AddLinks(map[], links), k) == LinkedTo(links, k)
  {
    assert Members(map[], k) == {};
  }

  lemma ExampleLinkedTo()
    ensures LinkedTo({("A", "B"), ("A", "C")}, "A") == {"B", "C"}
    ensures LinkedTo({("B", "A"), ("C", "A")}, "B") == {"A"}
    ensures LinkedTo({("B", "A"), ("C", "A")}, "C") == {"A"}
  {
    assert ("A", "B") in {("A", "B"), ("A", "C")};
    assert ("A", "C") in {("A", "B"), ("A", "C")};
    assert ("B", "A") in {("B", "A"), ("C", "A")};
    assert ("C", "A") in {("B", "A"), ("C", "A")};
  }

  // ---------------------------------------------------------------------------
  // The update task
  // ---------------------------------------------------------------------------

  /** One iteration of the bulk loop over `keys`, on the visited prefix. */
  lemma BulkLoopStep(s: CacheState, h: Hierarchy, groups: map<string, seq<ConstellationInfo>>, keys: seq<ObservableProperty>, i: nat)
    requires EnumeratesKeys(h, keys) && UniqueIdentifiers(h.Keys) && i < |keys|
    ensures KeySet(keys[..i]) <= h.Keys && KeySet(keys[..i + 1]) <= h.Keys && keys[i] in h
    ensures BulkUpdate(s, h, groups, KeySet(keys[..i + 1])) == Visit(BulkUpdate(s, h, groups, KeySet(keys[..i])), h, groups, keys[i])
  {
    KeySetStep(keys, i);
    BulkStep(s, h, groups, KeySet(keys[..i]), keys[i]);
  }

  /** One iteration of the fallback loop over `keys`, on the visited prefix. */
  lemma FallbackLoopStep(s: CacheState, e: seq<OwsExceptionReport>, keys: seq<ObservableProperty>, i: nat, offeringLookup: string -> Lookup, procedureLookup: string -> Lookup)
    requires i < |keys|
    ensures FallbackUpdate(s, Identifiers(KeySet(keys[..i + 1])), offeringLookup, procedureLookup)
         == LookUpOne(FallbackUpdate(s, Identifiers(KeySet(keys[..i])), offeringLookup, procedureLookup), keys[i].identifier, offeringLookup, procedureLookup)
    ensures e + FallbackErrors(keys[..i + 1], offeringLookup, procedureLookup)
         == e + FallbackErrors(keys[..i], offeringLookup, procedureLookup) + PropertyErrors(keys[i].identifier, offeringLookup, procedureLookup)
  {
    KeySetStep(keys, i);
    IdentifiersStep(KeySet(keys[..i]), keys[i]);
    FallbackStep(s, Identifiers(KeySet(keys[..i])), keys[i].identifier, offeringLookup, procedureLookup);
    FallbackErrorsStep(keys, i, offeringLookup, procedureLookup);
  }

  /** The cache-update task: the shared cache it writes and the errors it collects. */
  class ObservablePropertiesCacheUpdate {
    const cache: ContentsCache
    var errors: seq<OwsExceptionReport>

    constructor (cache: ContentsCache)
      ensures this.cache == cache && errors == []
    {
      this.cache := cache;
      errors := [];
    }

    /**
     * One pass. `keys` is the iteration order of the hierarchy's key set;
     * `constellationSupported` is the schema probe; `constellations` feed the
     * bulk path and the two lookups the fallback path.
     */
    method Execute(hierarchy: Hierarchy, keys: seq<ObservableProperty>, constellationSupported: bool,
                   constellations: seq<ConstellationInfo>,
                   offeringLookup: string -> Lookup, procedureLookup: string -> Lookup)
      requires EnumeratesKeys(hierarchy, keys) && UniqueIdentifiers(hierarchy.Keys)
      modifies this, cache
      ensures constellationSupported ==>
        && cache.State() == BulkUpdate(old(cache.State()), hierarchy, GroupByProperty(constellations), hierarchy.Keys)
        && errors == old(errors)
      ensures !constellationSupported ==>
        && cache.State() == FallbackUpdate(old(cache.State()), Identifiers(hierarchy.Keys), offeringLookup, procedureLookup)
        && errors == old(errors) + FallbackErrors(keys, offeringLookup, procedureLookup)
    {
      if constellationSupported {
        var groups := GroupByProperty(constellations);
        UpdateFromConstellations(hierarchy, keys, groups);
      } else {
        UpdateByLookups(hierarchy, keys, offeringLookup, procedureLookup);
      }
    }

    /** The bulk path: names, associations from the grouped records, composite phenomena and links. */
    method UpdateFromConstellations(hierarchy: Hierarchy, keys: seq<ObservableProperty>, groups: map<string, seq<ConstellationInfo>>)
      requires EnumeratesKeys(hierarchy, keys) && UniqueIdentifiers(hierarchy.Keys)
      modifies cache
      ensures cache.State() == BulkUpdate(old(cache.State()), hierarchy, groups, hierarchy.Keys)
    {
      ghost var s0 := cache.State();
      KeySetAll(keys);
      BulkNone(s0, hierarchy, groups);
      var i := 0;
      while i < |keys|
        invariant 0 <= i <= |keys|
        invariant cache.State() == BulkUpdate(s0, hierarchy, groups, KeySet(keys[..i]))
      {
        VisitProperty(hierarchy, groups, keys[i]);
        BulkLoopStep(s0, hierarchy, groups, keys, i);
        i := i + 1;
      }
      assert KeySet(keys) == hierarchy.Keys;
    }

    /** One iteration of the bulk loop. */
    method VisitProperty(hierarchy: Hierarchy, groups: map<string, seq<ConstellationInfo>>, observableProperty: ObservableProperty)
      requires observableProperty in hierarchy
      modifies cache
      ensures cache.State() == Visit(old(cache.State()), hierarchy, groups, observableProperty)
    {
      var id := observableProperty.identifier;
      var children := hierarchy[observableProperty];
      var isParent := children != {};

      if observableProperty.IsSetName() {
        cache.AddObservablePropertyIdentifierHumanReadableName(id, observableProperty.name.value);
      }
      if !observableProperty.hiddenChild {
        if id in groups && |groups[id]| > 0 {
          cache.SetOfferingsForObservableProperty(id, OfferingIdentifiers(groups[id]));
          cache.SetProceduresForObservableProperty(id, ProcedureIdentifiers(groups[id]));
        }
      }
      if isParent {
        cache.AddCompositePhenomenon(id);
        LinkChildren(id, children);
      }
    }

    /** Links every child to the composite phenomenon `parent` in both directions. */
    method LinkChildren(parent: string, children: set<ObservableProperty>)
      modifies cache
      ensures cache.State() == old(cache.State()).(
        compositesOf := AddLinks(old(cache.compositesOf), UpLinks(children, parent)),
        membersOf := AddLinks(old(cache.membersOf), DownLinks(parent, children)))
    {
      ghost var s0 := cache.State();
      var rest := children;
      AddLinksNone(s0.compositesOf);
      AddLinksNone(s0.membersOf);
      assert UpLinks({}, parent) == {} && DownLinks(parent, {}) == {};
      assert children - rest == {};
      while rest != {}
        invariant rest <= children
        invariant cache.State() == s0.(
          compositesOf := AddLinks(s0.compositesOf, UpLinks(children - rest, parent)),
          membersOf := AddLinks(s0.membersOf, DownLinks(parent, children - rest)))
        decreases rest
      {
        var child :| child in rest;
        cache.AddCompositePhenomenonForObservableProperty(child.identifier, parent);
        cache.AddObservablePropertyForCompositePhenomenon(parent, child.identifier);
        LinkRestStep(s0, children, rest, child, parent);
        rest := rest - {child};
      }
      assert children - rest == children;
    }

    /** The fallback path: per property, an offering lookup and a procedure lookup, each failure recorded on its own. */
    method UpdateByLookups(hierarchy: Hierarchy, keys: seq<ObservableProperty>,
                           offeringLookup: string -> Lookup, procedureLookup: string -> Lookup)
      requires EnumeratesKeys(hierarchy, keys)
      modifies this, cache
      ensures cache.State() == FallbackUpdate(old(cache.State()), Identifiers(hierarchy.Keys), offeringLookup, procedureLookup)
      ensures errors == old(errors) + FallbackErrors(keys, offeringLookup, procedureLookup)
    {
      ghost var s0 := cache.State();
      ghost var e0 := errors;
      KeySetAll(keys);
      FallbackNone(s0, offeringLookup, procedureLookup);
      var i := 0;
      while i < |keys|
        invariant 0 <= i <= |keys|
        invariant cache.State() == FallbackUpdate(s0, Identifiers(KeySet(keys[..i])), offeringLookup, procedureLookup)
        invariant errors == e0 + FallbackErrors(keys[..i], offeringLookup, procedureLookup)
      {
        LookUpProperty(keys[i].identifier, offeringLookup, procedureLookup);
        FallbackLoopStep(s0, e0, keys, i, offeringLookup, procedureLookup);
        i := i + 1;
      }
      assert KeySet(keys) == hierarchy.Keys;
    }

    /** One iteration of the fallback loop: two independent lookups, each failure appended to the errors. */
    method LookUpProperty(observableProperty: string, offeringLookup: string -> Lookup, procedureLookup: string -> Lookup)
      modifies this, cache
      ensures cache.State() == LookUpOne(old(cache.State()), observableProperty, offeringLookup, procedureLookup)
      ensures errors == old(errors) + PropertyErrors(observableProperty, offeringLookup, procedureLookup)
    {
      match offeringLookup(observableProperty) {
        case Ok(offeringIds) => cache.SetOfferingsForObservableProperty(observableProperty, offeringIds);
        case Err(e) => errors := errors + [e];
      }
      match procedureLookup(observableProperty) {
        case Ok(procedureIds) => cache.SetProceduresForObservableProperty(observableProperty, procedureIds);
        case Err(e) => errors := errors + [e];
      }
    }
  }
}
