/** The SMCP group: a Group native to one SMCP technology that keeps two memberships, the
    native SMCP members it tracks itself and the members of a local fan-out group used for
    hosted Things, and that routes each property operation to the multicast transport path,
    to the local group, or to both. */
module Smcp {
  import opened Base
  import opened Technology

  // ---------------------------------------------------------------------------------------
  // Membership
  // ---------------------------------------------------------------------------------------

  /** The group's two member sets: `mNativeMembers` and the members of `mLocalGroup`. */
  datatype Membership = Membership(native: set<ThingId>, local: set<ThingId>)

  /** How `addMember` sorts a candidate, in the order of its checks. */
  datatype AddDecision =
    | RejectNativeGroup   // an SmcpGroup of the same technology
    | RejectUnassociated  // neither native nor hosted
    | DelegateToLocal     // hosted: added to the local group
    | AddNative           // native SmcpThing: added to mNativeMembers
    | RejectOther         // associated, but neither hosted nor a native SmcpThing

  function Classify(tech: Tech, w: World, fe: ThingId): AddDecision
  {
    if IsSmcpGroupOf(w, fe, tech.id) then RejectNativeGroup
    else if !AssociatedWith(tech, w, fe) then RejectUnassociated
    else if HostedBy(tech, w, fe) then DelegateToLocal
    else if NativeTo(tech, w, fe) && IsSmcpThing(w, fe) then AddNative
    else RejectOther
  }

  /** The completion of the future `addMember` returns, once its task has run. */
  function AddOutcome(d: AddDecision): Outcome
  {
    if d == DelegateToLocal || d == AddNative then Pass else Fail(UnacceptableThing)
  }

  /** The membership once `addMember` has taken effect. */
  function AfterAdd(d: AddDecision, m: Membership, fe: ThingId): Membership
  {
    match d
    case DelegateToLocal => m.(local := m.local + {fe})
    case AddNative => m.(native := m.native + {fe})
    case _ => m
  }

  /** The membership once `fe` is removed from both sets: what `removeMember` is meant to do. */
  function Removed(m: Membership, fe: ThingId): Membership
  {
    Membership(m.native - {fe}, m.local - {fe})
  }

  /** `removeMember` as written: the cast `(SmcpThing) fe` comes first and throws for any
      other Thing, before either set is touched. */
  function RemovedAsWritten(w: World, m: Membership, fe: ThingId): Result<Membership>
  {
    if IsSmcpThing(w, fe) then Success(Removed(m, fe)) else Failure(ClassCast)
  }

  /** The set `fetchMembers` yields: a copy of the native members, joined by the local
      group's members when the group itself is hosted. */
  function Merged(groupHosted: bool, m: Membership): set<ThingId>
  {
    if groupHosted then m.native + m.local else m.native
  }

  // ---------------------------------------------------------------------------------------
  // Routing
  // ---------------------------------------------------------------------------------------

  /** The sections of a Thing's properties. */
  datatype Section = State | Config | Metadata

  /** A property key: `BaseTrait.META_UID`, or any other key, named within its section. */
  datatype PropertyKey = MetaUid | Key(section: Section, name: string)

  function SectionOf(key: PropertyKey): Section
  {
    match key
    case MetaUid => Metadata
    case Key(s, _) => s
  }

  /** The overridden operations of the group, with the argument that changes their routing. */
  datatype Request =
    | SetProperty
    | IncrementProperty
    | InsertValueIntoProperty
    | RemoveValueFromProperty
    | ToggleProperty
    | ApplyProperties
    | InvokeMethod
    | FetchProperty(key: PropertyKey)
    | FetchSection(section: Section)
    | FetchSupportedPropertyKeys
    | FetchChildrenForTrait
    | CachedProperty(key: PropertyKey)

  predicate IsMutation(req: Request)
  {
    || req.SetProperty? || req.IncrementProperty? || req.InsertValueIntoProperty?
    || req.RemoveValueFromProperty? || req.ToggleProperty? || req.ApplyProperties?
    || req.InvokeMethod?
  }

  /** Where an operation goes: the transport path (`super`, the SMCP multicast client), the
      local group, both, or nowhere, because the answer is the group id itself. Under `Both`
      the caller receives the local group's future only (`chainCancelation` returns it, and
      cancelling it cancels the transport branch), so a failure on the transport path is never
      reported to the caller. */
  datatype Route = TransportOnly | Both | LocalOnly | ConstantUid

  predicate ReachesTransport(r: Route)
  {
    r == TransportOnly || r == Both
  }

  predicate ReachesLocalGroup(r: Route)
  {
    r == Both || r == LocalOnly
  }

  /** The routing decision of each overridden operation, given `isHosted(this)` and
      `mLocalGroup.hasLocalMembers()`. */
  function RouteFor(req: Request, groupHosted: bool, hasLocalMembers: bool): Route
  {
    if (req.FetchProperty? || req.CachedProperty?) && req.key == MetaUid then ConstantUid
    else if req.CachedProperty? then (if groupHosted then LocalOnly else TransportOnly)
    else if groupHosted && hasLocalMembers then (if IsMutation(req) then Both else LocalOnly)
    else TransportOnly
  }

  /** Every mutation reaches the transport path, and also reaches the local group exactly
      when the group is hosted and has local members. */
  lemma MutationRouting(req: Request, groupHosted: bool, hasLocalMembers: bool)
    requires IsMutation(req)
    ensures ReachesTransport(RouteFor(req, groupHosted, hasLocalMembers))
    ensures ReachesLocalGroup(RouteFor(req, groupHosted, hasLocalMembers)) <==> groupHosted && hasLocalMembers
  {
  }

  /** Fetches other than META_UID go to exactly one side: the local group when the group is
      hosted and has local members, the transport path otherwise. */
  lemma FetchRouting(req: Request, groupHosted: bool, hasLocalMembers: bool)
    requires req.FetchSection? || req.FetchSupportedPropertyKeys? || req.FetchChildrenForTrait? ||
             (req.FetchProperty? && req.key != MetaUid)
    ensures var r := RouteFor(req, groupHosted, hasLocalMembers);
      ReachesLocalGroup(r) != ReachesTransport(r) && (r == LocalOnly <==> groupHosted && hasLocalMembers)
  {
  }

  /** META_UID is answered from the group id, whether or not the group is hosted; any other
      cached property is read from the local group whenever the group is hosted, even when it
      has no local members. */
  lemma CachedAndUidRouting(key: PropertyKey, groupHosted: bool, hasLocalMembers: bool)
    ensures RouteFor(FetchProperty(MetaUid), groupHosted, hasLocalMembers) == ConstantUid
    ensures RouteFor(CachedProperty(MetaUid), groupHosted, hasLocalMembers) == ConstantUid
    ensures key != MetaUid ==>
      (RouteFor(CachedProperty(key), groupHosted, hasLocalMembers) == LocalOnly <==> groupHosted)
    ensures key != MetaUid && groupHosted && !hasLocalMembers ==>
      RouteFor(CachedProperty(key), groupHosted, hasLocalMembers) != RouteFor(FetchProperty(key), groupHosted, hasLocalMembers)
  {
  }

  // ---------------------------------------------------------------------------------------
  // Cached properties
  // ---------------------------------------------------------------------------------------

  /** A property value: a string, or any other object. */
  datatype Value = Text(text: string) | OtherValue(tag: nat)

  /** A property cache: the transport path's, or the local group's. */
  type Cache = map<PropertyKey, Value>

  /** The cached values of one section (`copyCachedSection(section)` of a cache). */
  function SectionView(c: Cache, s: Section): (v: Cache)
    ensures forall k :: k in v <==> k in c && SectionOf(k) == s
    ensures forall k :: k in v ==> v[k] == c[k]
  {
    map k | k in c && SectionOf(k) == s :: c[k]
  }

  /** `copyCachedSection(section)`: the transport cache, overlaid when the group is hosted by
      the local group's STATE or CONFIG values if it has local members, and always by its
      METADATA values followed by META_UID set to the group id. */
  function CopyCachedSection(section: Section, groupHosted: bool, hasLocalMembers: bool, groupId: string,
                             transport: Cache, local: Cache): (r: Cache)
    ensures forall k :: k in r ==> SectionOf(k) == section
    ensures !groupHosted ==> r == SectionView(transport, section)
    ensures groupHosted && section != Metadata && !hasLocalMembers ==> r == SectionView(transport, section)
    ensures groupHosted && section == Metadata ==> MetaUid in r && r[MetaUid] == Text(groupId)
    ensures groupHosted && (hasLocalMembers || section == Metadata) ==>
      forall k :: k in local && SectionOf(k) == section && k != MetaUid ==> k in r && r[k] == local[k]
    ensures groupHosted && (hasLocalMembers || section == Metadata) ==>
      forall k :: k in transport && SectionOf(k) == section && k !in local && k != MetaUid ==>
        k in r && r[k] == transport[k]
    ensures forall k :: k in r && k != MetaUid ==>
      (k in transport && r[k] == transport[k]) || (k in local && r[k] == local[k])
  {
    var base := SectionView(transport, section);
    if !groupHosted then base
    else if section != Metadata then
      (if hasLocalMembers then base + SectionView(local, section) else base)
    else
      (base + SectionView(local, Metadata))[MetaUid := Text(groupId)]
  }

  /** `getCachedProperty(key)`: META_UID is the group id; any other key is looked up in the
      cache that `RouteFor` picks for a cached read, which does not depend on local members. */
  function GetCachedProperty(key: PropertyKey, groupHosted: bool, groupId: string,
                             transport: Cache, local: Cache): (r: Option<Value>)
    ensures key == MetaUid ==> r == Some(Text(groupId))
    ensures forall h: bool :: key != MetaUid && RouteFor(CachedProperty(key), groupHosted, h) == LocalOnly ==>
      r == (if key in local then Some(local[key]) else None)
    ensures forall h: bool :: key != MetaUid && RouteFor(CachedProperty(key), groupHosted, h) != LocalOnly ==>
      r == (if key in transport then Some(transport[key]) else None)
  {
    if key == MetaUid then Some(Text(groupId))
    else
      var c := if groupHosted then local else transport;
      if key in c then Some(c[key]) else None
  }

  /** When the group is hosted and the local section is overlaid, reading one cached property
      the local cache holds (or META_UID) and reading it out of its cached section agree. */
  lemma CachedViewsAgree(key: PropertyKey, hasLocalMembers: bool, groupId: string, transport: Cache, local: Cache)
    requires hasLocalMembers || SectionOf(key) == Metadata
    requires key in local || key == MetaUid
    ensures var sec := CopyCachedSection(SectionOf(key), true, hasLocalMembers, groupId, transport, local);
      key in sec && GetCachedProperty(key, true, groupId, transport, local) == Some(sec[key])
  {
  }

  /** Where the two read paths part: a hosted group without local members reads a single
      cached STATE property from the local group but its STATE section from the transport
      cache; a hosted group with local members reads a STATE key that only the transport
      cache holds as missing, yet its STATE section keeps it; and an unhosted group reports
      META_UID as its group id while its METADATA section holds whatever the transport
      cache holds. */
  lemma CachedViewsDiverge()
    ensures var k := Key(State, "onof/v");
      var transport := map[k := OtherValue(0)];
      var local := map[k := OtherValue(1)];
      && GetCachedProperty(k, true, "g", transport, local) == Some(OtherValue(1))
      && CopyCachedSection(State, true, false, "g", transport, local)[k] == OtherValue(0)
    ensures var k := Key(State, "onof/v");
      var transport := map[k := OtherValue(0)];
      && GetCachedProperty(k, true, "g", transport, map[]) == None
      && CopyCachedSection(State, true, true, "g", transport, map[])[k] == OtherValue(0)
    ensures GetCachedProperty(MetaUid, false, "g", map[], map[]) == Some(Text("g"))
    ensures MetaUid !in CopyCachedSection(Metadata, false, true, "g", map[], map[])
  {
  }

  // ---------------------------------------------------------------------------------------
  // Lemmas about membership
  // ---------------------------------------------------------------------------------------

  /** `addMember` refuses an SmcpGroup of its own technology first, then anything that is
      neither native nor hosted, and accepts exactly hosted Things and native SmcpThings. */
  lemma AddMemberDecision(tech: Tech, w: World, fe: ThingId)
    ensures Classify(tech, w, fe) == RejectNativeGroup <==> IsSmcpGroupOf(w, fe, tech.id)
    ensures Classify(tech, w, fe) == RejectUnassociated <==>
      !IsSmcpGroupOf(w, fe, tech.id) && !AssociatedWith(tech, w, fe)
    ensures AddOutcome(Classify(tech, w, fe)) == Pass <==>
      !IsSmcpGroupOf(w, fe, tech.id) && (HostedBy(tech, w, fe) || (NativeTo(tech, w, fe) && IsSmcpThing(w, fe)))
    ensures Classify(tech, w, fe) == RejectOther ==>
      NativeTo(tech, w, fe) && !HostedBy(tech, w, fe) && !IsSmcpThing(w, fe)
  {
  }

  /** An SmcpGroup of the technology is native to it, so the first check only ever refuses
      Things that the later checks would have found associated. */
  lemma NativeGroupIsAssociated(tech: Tech, w: World, fe: ThingId)
    requires IsSmcpGroupOf(w, fe, tech.id)
    ensures NativeTo(tech, w, fe)
  {
    ChainBounds(w, fe, ParentLimit + 1);
    assert Lineage(w, fe)[0] in Lineage(w, fe);
  }

  /** A hosted Thing goes only into the local group and a native, non-hosted SmcpThing only
      into the native set; a refused Thing changes nothing. */
  lemma AddMemberEffect(tech: Tech, w: World, m: Membership, fe: ThingId)
    ensures var d := Classify(tech, w, fe); var m' := AfterAdd(d, m, fe);
      && (d == DelegateToLocal ==> m'.native == m.native && m'.local == m.local + {fe})
      && (d == AddNative ==> m'.native == m.native + {fe} && m'.local == m.local)
      && (AddOutcome(d).Fail? ==> m' == m)
  {
  }

  /** Adding the same Thing twice leaves the membership as adding it once. */
  lemma AddIsIdempotent(d: AddDecision, m: Membership, fe: ThingId)
    ensures AfterAdd(d, AfterAdd(d, m, fe), fe) == AfterAdd(d, m, fe)
  {
  }

  /** After an accepted `addMember`, the Thing shows up in `fetchMembers` exactly when it was
      added natively, or the group is hosted, or it was already a native member. */
  lemma AddedThingIsFetched(d: AddDecision, m: Membership, fe: ThingId, groupHosted: bool)
    requires AddOutcome(d) == Pass
    ensures fe in Merged(groupHosted, AfterAdd(d, m, fe)) <==> d == AddNative || groupHosted || fe in m.native
  {
  }

  /** Removal undoes an addition of a Thing that was not a member. */
  lemma RemoveUndoesAdd(d: AddDecision, m: Membership, fe: ThingId)
    requires fe !in m.native && fe !in m.local
    ensures Removed(AfterAdd(d, m, fe), fe) == m
  {
  }

  /** After removal the Thing is absent from `fetchMembers` and every other member is still
      there. */
  lemma RemovedThingIsNotFetched(m: Membership, fe: ThingId, groupHosted: bool)
    ensures fe !in Merged(groupHosted, Removed(m, fe))
    ensures forall x :: x != fe ==> (x in Merged(groupHosted, Removed(m, fe)) <==> x in Merged(groupHosted, m))
  {
  }

  /** As written, `removeMember` cannot take back a hosted Thing that is not an SmcpThing:
      `addMember` put it in the local group, and removing it throws ClassCastException and
      leaves it there. */
  lemma AsWrittenRemovalKeepsHostedMember(tech: Tech, w: World, m: Membership, fe: ThingId)
    requires HostedBy(tech, w, fe) && !IsSmcpThing(w, fe)
    ensures var added := AfterAdd(Classify(tech, w, fe), m, fe);
      && Classify(tech, w, fe) == DelegateToLocal
      && fe in added.local
      && RemovedAsWritten(w, added, fe) == Failure(ClassCast)
      && fe !in Removed(added, fe).local
  {
  }

  /** A concrete case: a hosted local Thing with no parent, added to an empty group. */
  lemma HostedLocalThingCannotBeRemoved()
    ensures var w := map[1 := Node(None, OtherThing)];
      var tech := Tech(7, {1});
      var added := AfterAdd(Classify(tech, w, 1), Membership({}, {}), 1);
      && added == Membership({}, {1})
      && RemovedAsWritten(w, added, 1) == Failure(ClassCast)
      && Removed(added, 1) == Membership({}, {})
  {
  }

  // ---------------------------------------------------------------------------------------
  // The group object
  // ---------------------------------------------------------------------------------------

  class SmcpGroup {
    /** `mGroupId`. */
    const groupId: string
    /** This group as a Thing, the argument of `mTechnology.isHosted(this)`. */
    const thingId: ThingId
    /** `mTechnology`. */
    const technology: TechId
    /** `mNativeMembers`. */
    var nativeMembers: set<ThingId>
    /** The members of `mLocalGroup`. */
    var localMembers: set<ThingId>

    /** The local group is found or created by id, so it may already have members. */
    constructor (technology: TechId, thingId: ThingId, groupId: string, localGroupMembers: set<ThingId>)
      ensures this.technology == technology && this.thingId == thingId && this.groupId == groupId
      ensures nativeMembers == {} && localMembers == localGroupMembers
    {
      this.technology := technology;
      this.thingId := thingId;
      this.groupId := groupId;
      nativeMembers := {};
      localMembers := localGroupMembers;
    }

    function Members(): Membership
      reads this
    {
      Membership(nativeMembers, localMembers)
    }

    /** `mLocalGroup.hasLocalMembers()`. */
    predicate HasLocalMembers()
      reads this
    {
      localMembers != {}
    }

    /** `addMember(fe)`, with the task that adds a native member run to completion. */
    method AddMember(tech: Tech, w: World, fe: ThingId) returns (res: Outcome)
      requires tech.id == technology
      modifies this
      ensures res == AddOutcome(Classify(tech, w, fe))
      ensures Members() == AfterAdd(Classify(tech, w, fe), old(Members()), fe)
    {
      if IsSmcpGroupOf(w, fe, technology) {
        return Fail(UnacceptableThing);
      }
      var associated := IsAssociatedWith(tech, w, fe);
      if !associated {
        return Fail(UnacceptableThing);
      }
      var hosted := IsHosted(tech, w, fe);
      if hosted {
        // mLocalGroup.addMember(fe)
        localMembers := localMembers + {fe};
        return Pass;
      }
      var native := IsNative(tech, w, fe);
      if native && IsSmcpThing(w, fe) {
        nativeMembers := nativeMembers + {fe};
        return Pass;
      }
      return Fail(UnacceptableThing);
    }

    /** `removeMember(fe)` as written: the cast to SmcpThing precedes both removals. */
    method RemoveMemberAsWritten(w: World, fe: ThingId) returns (res: Outcome)
      modifies this
      ensures RemovedAsWritten(w, old(Members()), fe).Success? ==>
        res == Pass && Members() == RemovedAsWritten(w, old(Members()), fe).value
      ensures RemovedAsWritten(w, old(Members()), fe).Failure? ==>
        res == Fail(ClassCast) && Members() == old(Members())
    {
      if !IsSmcpThing(w, fe) {
        return Fail(ClassCast);
      }
      nativeMembers := nativeMembers - {fe};
      // mLocalGroup.removeMember(fe)
      localMembers := localMembers - {fe};
      return Pass;
    }

    /** `removeMember(fe)` without the cast: drop `fe` from the native set, then forward the
        removal to the local group. */
    method RemoveMember(fe: ThingId) returns (res: Outcome)
      modifies this
      ensures res == Pass
      ensures Members() == Removed(old(Members()), fe)
    {
      nativeMembers := nativeMembers - {fe};
      localMembers := localMembers - {fe};
      return Pass;
    }

    /** `fetchMembers()`, with the local group's future completed. */
    function FetchMembers(tech: Tech, w: World): (r: set<ThingId>)
      requires tech.id == technology
      reads this
      ensures !HostedBy(tech, w, thingId) ==> r == nativeMembers
      ensures HostedBy(tech, w, thingId) ==> forall x :: x in r <==> x in nativeMembers || x in localMembers
    {
      Merged(HostedBy(tech, w, thingId), Members())
    }

    /** The routing each overridden operation performs, asking the technology whether the
        group is hosted the way the source does. */
    method Dispatch(tech: Tech, w: World, req: Request) returns (route: Route)
      requires tech.id == technology
      ensures route == RouteFor(req, HostedBy(tech, w, thingId), HasLocalMembers())
    {
      if (req.FetchProperty? || req.CachedProperty?) && req.key == MetaUid {
        return ConstantUid;
      }
      var hosted := IsHosted(tech, w, thingId);
      route := RouteFor(req, hosted, localMembers != {});
    }
  }
}
