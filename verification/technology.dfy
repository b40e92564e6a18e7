/** The default methods of the `Technology` interface: how a Thing's relationship with a
    technology (hosted, native, associated) is resolved by walking its parent chain, how a
    technology-relative URI is made relative to a Thing, and the defaults of a technology
    that supports neither hosting nor groups. */
module Technology {
  import opened Base

  /** The initial value of the `parentLimit` counter of the default walks. The walks look at
      the Thing itself and then at up to `ParentLimit + 1` ancestors. */
  const ParentLimit: nat := 4

  /** A technology instance as the default methods see it: its identity and the set that its
      `copyHostedFunctionalEndpointSet()` returns. */
  datatype Tech = Tech(id: TechId, hosted: set<ThingId>)

  // ---------------------------------------------------------------------------------------
  // The parent chain
  // ---------------------------------------------------------------------------------------

  /** `t` followed by at most `n` ancestors, stopping at the first Thing without a parent. */
  function Chain(w: World, t: ThingId, n: nat): seq<ThingId>
    decreases n
  {
    [t] + (if n == 0 then [] else match Parent(w, t)
                                  case None => []
                                  case Some(p) => Chain(w, p, n - 1))
  }

  /** The Things the default walks inspect, in order: the Thing and up to five ancestors. */
  function Lineage(w: World, t: ThingId): seq<ThingId>
  {
    Chain(w, t, ParentLimit + 1)
  }

  /** The `k`-th ancestor of `t` (`t` itself for `k == 0`), if the chain is that long. */
  function Ancestor(w: World, t: ThingId, k: nat): Option<ThingId>
    decreases k
  {
    if k == 0 then Some(t)
    else match Parent(w, t)
         case None => None
         case Some(p) => Ancestor(w, p, k - 1)
  }

  /** What the default `isHosted` decides. */
  predicate HostedBy(tech: Tech, w: World, t: ThingId)
  {
    exists x :: x in Lineage(w, t) && x in tech.hosted
  }

  /** What the default `isNative` decides. */
  predicate NativeTo(tech: Tech, w: World, t: ThingId)
  {
    exists x :: x in Lineage(w, t) && IsGroupOf(w, x, tech.id)
  }

  /** What `isAssociatedWith` decides. */
  predicate AssociatedWith(tech: Tech, w: World, t: ThingId)
  {
    NativeTo(tech, w, t) || HostedBy(tech, w, t)
  }

  /** The ancestor one level further up is the parent of the current one. */
  lemma {:induction false} AncestorStep(w: World, t: ThingId, k: nat)
    ensures Ancestor(w, t, k + 1) == match Ancestor(w, t, k)
                                     case None => None
                                     case Some(a) => Parent(w, a)
    decreases k
  {
    if k > 0 {
      match Parent(w, t)
      case None =>
      case Some(p) => AncestorStep(w, p, k - 1);
    }
  }

  /** Once the ancestors run out they stay out. */
  lemma {:induction false} AncestorsEnd(w: World, t: ThingId, k: nat)
    requires Ancestor(w, t, k).None?
    ensures forall j :: k <= j ==> Ancestor(w, t, j).None?
  {
    forall j | k <= j ensures Ancestor(w, t, j).None? {
      AncestorsEndAt(w, t, k, j);
    }
  }

  lemma {:induction false} AncestorsEndAt(w: World, t: ThingId, k: nat, j: nat)
    requires Ancestor(w, t, k).None? && k <= j
    ensures Ancestor(w, t, j).None?
    decreases j - k
  {
    if k < j {
      AncestorStep(w, t, k);
      AncestorsEndAt(w, t, k + 1, j);
    }
  }

  /** A chain starts at its Thing and is never longer than `n + 1`. */
  lemma {:induction false} ChainBounds(w: World, t: ThingId, n: nat)
    ensures 1 <= |Chain(w, t, n)| <= n + 1
    ensures Chain(w, t, n)[0] == t
    decreases n
  {
    if n > 0 {
      match Parent(w, t)
      case None =>
      case Some(p) => ChainBounds(w, p, n - 1);
    }
  }

  /** Consecutive entries of a chain are Thing and parent, and a chain shorter than its bound
      ends at a Thing whose parent is null. */
  lemma {:induction false} ChainFollowsParents(w: World, t: ThingId, n: nat)
    ensures var c := Chain(w, t, n);
      forall i :: 0 <= i < |c| - 1 ==> Parent(w, c[i]) == Some(c[i + 1])
    ensures var c := Chain(w, t, n);
      |c| < n + 1 ==> Parent(w, c[|c| - 1]) == None
    decreases n
  {
    ChainBounds(w, t, n);
    if n > 0 {
      match Parent(w, t)
      case None =>
      case Some(p) =>
        ChainFollowsParents(w, p, n - 1);
        ChainBounds(w, p, n - 1);
        var c, d := Chain(w, t, n), Chain(w, p, n - 1);
        assert c == [t] + d;
        forall i | 0 <= i < |c| - 1 ensures Parent(w, c[i]) == Some(c[i + 1]) {
          if i > 0 {
            assert c[i] == d[i - 1] && c[i + 1] == d[i];
          }
        }
    }
  }

  /** Entry `k` of a chain is the `k`-th ancestor, and the chain is cut exactly where the
      ancestors run out. */
  lemma {:induction false} ChainIsAncestors(w: World, t: ThingId, n: nat, k: nat)
    requires k <= n
    ensures k < |Chain(w, t, n)| <==> Ancestor(w, t, k).Some?
    ensures k < |Chain(w, t, n)| ==> Chain(w, t, n)[k] == Ancestor(w, t, k).value
    decreases n
  {
    ChainBounds(w, t, n);
    if k > 0 {
      match Parent(w, t)
      case None =>
      case Some(p) =>
        ChainIsAncestors(w, p, n - 1, k - 1);
    }
  }

  /** The lineage never holds more than six Things, and it stops at the first null parent. */
  lemma LineageShape(w: World, t: ThingId)
    ensures 1 <= |Lineage(w, t)| <= ParentLimit + 2
    ensures Lineage(w, t)[0] == t
    ensures var c := Lineage(w, t);
      forall i :: 0 <= i < |c| - 1 ==> Parent(w, c[i]) == Some(c[i + 1])
    ensures var c := Lineage(w, t);
      |c| < ParentLimit + 2 ==> Parent(w, c[|c| - 1]) == None
  {
    ChainBounds(w, t, ParentLimit + 1);
    ChainFollowsParents(w, t, ParentLimit + 1);
  }

  /** A Thing that is its own parent is inspected six times and the walk still ends. */
  lemma {:induction false} SelfParentLineage(w: World, t: ThingId)
    requires Parent(w, t) == Some(t)
    ensures Lineage(w, t) == [t, t, t, t, t, t]
  {
    assert Chain(w, t, 0) == [t];
    assert Chain(w, t, 1) == [t, t];
    assert Chain(w, t, 2) == [t, t, t];
    assert Chain(w, t, 3) == [t, t, t, t];
    assert Chain(w, t, 4) == [t, t, t, t, t];
  }

  /** `isHosted(fe)` holds exactly when `fe` or one of its first five ancestors is hosted. */
  lemma HostedWithinFiveAncestors(tech: Tech, w: World, t: ThingId)
    ensures HostedBy(tech, w, t) <==>
      exists k :: 0 <= k <= ParentLimit + 1 && Ancestor(w, t, k).Some? && Ancestor(w, t, k).value in tech.hosted
  {
    var c := Lineage(w, t);
    ChainBounds(w, t, ParentLimit + 1);
    if HostedBy(tech, w, t) {
      var x :| x in c && x in tech.hosted;
      var i :| 0 <= i < |c| && c[i] == x;
      ChainIsAncestors(w, t, ParentLimit + 1, i);
    }
    if exists k :: 0 <= k <= ParentLimit + 1 && Ancestor(w, t, k).Some? && Ancestor(w, t, k).value in tech.hosted {
      var k :| 0 <= k <= ParentLimit + 1 && Ancestor(w, t, k).Some? && Ancestor(w, t, k).value in tech.hosted;
      ChainIsAncestors(w, t, ParentLimit + 1, k);
      assert c[k] in c;
    }
  }

  /** `isNative(fe)` holds exactly when `fe` or one of its first five ancestors is a Group of
      this technology. */
  lemma NativeWithinFiveAncestors(tech: Tech, w: World, t: ThingId)
    ensures NativeTo(tech, w, t) <==>
      exists k :: 0 <= k <= ParentLimit + 1 && Ancestor(w, t, k).Some? && IsGroupOf(w, Ancestor(w, t, k).value, tech.id)
  {
    var c := Lineage(w, t);
    ChainBounds(w, t, ParentLimit + 1);
    if NativeTo(tech, w, t) {
      var x :| x in c && IsGroupOf(w, x, tech.id);
      var i :| 0 <= i < |c| && c[i] == x;
      ChainIsAncestors(w, t, ParentLimit + 1, i);
    }
    if exists k :: 0 <= k <= ParentLimit + 1 && Ancestor(w, t, k).Some? && IsGroupOf(w, Ancestor(w, t, k).value, tech.id) {
      var k :| 0 <= k <= ParentLimit + 1 && Ancestor(w, t, k).Some? && IsGroupOf(w, Ancestor(w, t, k).value, tech.id);
      ChainIsAncestors(w, t, ParentLimit + 1, k);
      assert c[k] in c;
    }
  }

  /** The walk reaches the fifth ancestor (one level more than the interface's documentation
      of `isHosted` says) and not the sixth: in the chain 0 -> 1 -> ... -> 6, hosting 5 makes
      0 hosted and hosting 6 does not. */
  lemma HostedDepthIsFive()
    ensures var w := map[0 := Node(Some(1), OtherThing), 1 := Node(Some(2), OtherThing),
                         2 := Node(Some(3), OtherThing), 3 := Node(Some(4), OtherThing),
                         4 := Node(Some(5), OtherThing), 5 := Node(Some(6), OtherThing),
                         6 := Node(None, OtherThing)];
      HostedBy(Tech(0, {5}), w, 0) && !HostedBy(Tech(0, {6}), w, 0)
  {
    var w := map[0 := Node(Some(1), OtherThing), 1 := Node(Some(2), OtherThing),
                 2 := Node(Some(3), OtherThing), 3 := Node(Some(4), OtherThing),
                 4 := Node(Some(5), OtherThing), 5 := Node(Some(6), OtherThing),
                 6 := Node(None, OtherThing)];
    assert Chain(w, 5, 0) == [5];
    assert Chain(w, 4, 1) == [4, 5];
    assert Chain(w, 3, 2) == [3, 4, 5];
    assert Chain(w, 2, 3) == [2, 3, 4, 5];
    assert Chain(w, 1, 4) == [1, 2, 3, 4, 5];
    assert Lineage(w, 0) == [0, 1, 2, 3, 4, 5];
    assert 5 in Lineage(w, 0);
  }

  // ---------------------------------------------------------------------------------------
  // isHosted, isNative, isAssociatedWith
  // ---------------------------------------------------------------------------------------

  /** Default `isHosted`: the bounded do/while walk up the parent chain. */
  method IsHosted(tech: Tech, w: World, fe: ThingId) returns (r: bool)
    ensures r == HostedBy(tech, w, fe)
  {
    var hostedFeSet := tech.hosted;
    var cur := fe;
    var parentLimit: int := ParentLimit;
    ghost var depth: nat := 0;
    while true
      invariant 0 <= parentLimit <= ParentLimit && depth == ParentLimit - parentLimit
      invariant Ancestor(w, fe, depth) == Some(cur)
      invariant forall k :: 0 <= k < depth ==> Ancestor(w, fe, k).Some? && !(Ancestor(w, fe, k).value in hostedFeSet)
      decreases parentLimit
    {
      if cur in hostedFeSet {
        HostedWithinFiveAncestors(tech, w, fe);
        return true;
      }
      var parent := Parent(w, cur);
      AncestorStep(w, fe, depth);
      if parent.None? {
        AncestorsEnd(w, fe, depth + 1);
        break;
      }
      cur := parent.value;
      depth := depth + 1;
      // while (parentLimit-- != 0)
      if parentLimit == 0 {
        break;
      }
      parentLimit := parentLimit - 1;
    }
    HostedWithinFiveAncestors(tech, w, fe);
    r := cur in hostedFeSet;
  }

  /** Default `isNative`: the same walk, asking whether a Thing is a Group of this technology. */
  method IsNative(tech: Tech, w: World, fe: ThingId) returns (r: bool)
    ensures r == NativeTo(tech, w, fe)
  {
    var cur := fe;
    var parentLimit: int := ParentLimit;
    ghost var depth: nat := 0;
    while true
      invariant 0 <= parentLimit <= ParentLimit && depth == ParentLimit - parentLimit
      invariant Ancestor(w, fe, depth) == Some(cur)
      invariant forall k :: 0 <= k < depth ==> Ancestor(w, fe, k).Some? && !IsGroupOf(w, Ancestor(w, fe, k).value, tech.id)
      decreases parentLimit
    {
      if IsGroupOf(w, cur, tech.id) {
        NativeWithinFiveAncestors(tech, w, fe);
        return true;
      }
      var parent := Parent(w, cur);
      AncestorStep(w, fe, depth);
      if parent.None? {
        AncestorsEnd(w, fe, depth + 1);
        break;
      }
      cur := parent.value;
      depth := depth + 1;
      // while (parentLimit-- != 0)
      if parentLimit == 0 {
        break;
      }
      parentLimit := parentLimit - 1;
    }
    NativeWithinFiveAncestors(tech, w, fe);
    r := IsGroupOf(w, cur, tech.id);
  }

  /** `isAssociatedWith(fe)`: `isNative(fe) || isHosted(fe)`, evaluated left to right. */
  method IsAssociatedWith(tech: Tech, w: World, fe: ThingId) returns (r: bool)
    ensures r == AssociatedWith(tech, w, fe)
  {
    r := IsNative(tech, w, fe);
    if !r {
      r := IsHosted(tech, w, fe);
    }
  }

  // ---------------------------------------------------------------------------------------
  // Default hosting and group support
  // ---------------------------------------------------------------------------------------

  /** Default `copyHostedFunctionalEndpointSet()`: a fresh empty set. */
  function CopyHostedFunctionalEndpointSet(): (s: set<ThingId>)
    ensures forall t :: t !in s
  {
    {}
  }

  /** A technology that keeps the default hosted set hosts no Thing, so only native Things
      are associated with it. */
  lemma DefaultTechnologyHostsNothing(id: TechId, w: World, t: ThingId)
    ensures !HostedBy(Tech(id, CopyHostedFunctionalEndpointSet()), w, t)
    ensures AssociatedWith(Tech(id, CopyHostedFunctionalEndpointSet()), w, t) ==
            NativeTo(Tech(id, CopyHostedFunctionalEndpointSet()), w, t)
  {
  }

  /** Default `createNewGroup()`: a future failed with GroupsNotSupportedException. */
  function CreateNewGroup(): (r: Result<ThingId>)
    ensures r.Failure? && r.error == GroupsNotSupported
  {
    Failure(GroupsNotSupported)
  }

  /** Default `fetchOrCreateGroupWithId(groupId)`: a future holding null, whatever the id. */
  function FetchOrCreateGroupWithId(groupId: string): (r: Result<Option<ThingId>>)
    ensures r.Success? && r.value.None?
  {
    Success(None)
  }

  /** Default `copyHostedGroups()`: an empty collection. */
  function CopyHostedGroups(): (r: seq<ThingId>)
    ensures |r| == 0
  {
    []
  }

  // ---------------------------------------------------------------------------------------
  // URIs
  // ---------------------------------------------------------------------------------------

  /** The components of a `java.net.URI` that the default conversion reads; `None` is null. */
  datatype Uri = Uri(scheme: Option<string>, authority: Option<string>, path: Option<string>,
                     query: Option<string>, fragment: Option<string>)

  /** `uri.isAbsolute()`: the URI has a scheme. */
  predicate IsAbsolute(uri: Uri)
  {
    uri.scheme.Some?
  }

  /** The `Operation` argument of `getNativeUriForProperty`; only `UNSPECIFIED` is used here,
      the enumeration's other constants are carried by name. */
  datatype Operation = Unspecified | OtherOperation(name: string)

  /** Two-argument `getNativeUriForProperty`: the full call with `Operation.UNSPECIFIED` and no
      modifiers. The full call belongs to each technology and is a parameter here. */
  function GetNativeUriForProperty<Key, Modifier>(
    full: (ThingId, Key, Operation, seq<Modifier>) -> Result<Uri>, fe: ThingId, key: Key): (r: Result<Uri>)
    ensures r == full(fe, key, Unspecified, [])
  {
    full(fe, key, Unspecified, [])
  }

  /** Default `getRelativeUriForFunctionalEndpoint(fe, uri)`. `nativeUriOf` is the technology's
      own `getNativeUriForFunctionalEndpoint`, which the default only consults for URIs with
      a scheme. */
  function GetRelativeUriForFunctionalEndpoint(
    tech: Tech, w: World, nativeUriOf: ThingId -> Result<Uri>, fe: ThingId, uri: Uri): (r: Result<Uri>)
    ensures r.Success? ==>
      r.value.path == uri.path && r.value.query == uri.query && r.value.fragment == uri.fragment
    ensures r.Success? && r.value != uri ==>
      IsAbsolute(uri) && r.value.scheme.None? && r.value.authority.None?
    ensures !IsAbsolute(uri) && r.Success? ==> HostedBy(tech, w, fe)
  {
    if !IsAbsolute(uri) then
      if uri.path.Some? && |uri.path.value| == 0 then
        // charAt(0) on an empty path
        Failure(IndexOutOfBounds)
      else if uri.path.Some? && uri.path.value[0] != '/' then
        Failure(UnknownResource)
      else if !HostedBy(tech, w, fe) then
        Failure(UnassociatedResource)
      else
        Success(uri)
    else
      match nativeUriOf(fe)
      case Failure(e) => Failure(e)
      case Success(feUri) =>
        if uri.scheme == feUri.scheme && uri.authority == feUri.authority then
          Success(Uri(None, None, uri.path, uri.query, uri.fragment))
        else
          Success(uri)
  }

  /** Puts a base URI's scheme and authority back on a reference that has neither; this is
      not full reference resolution (no base path or query is inherited, no dot segment is
      removed). */
  function WithSchemeAndAuthorityOf(ref: Uri, base: Uri): Uri
  {
    if ref.scheme.None? && ref.authority.None? then
      Uri(base.scheme, base.authority, ref.path, ref.query, ref.fragment)
    else
      ref
  }

  /** A scheme-less URI: a path not starting with '/' is refused as unknown before hosting is
      looked at; an absolute path (or no path) is returned unchanged exactly for hosted Things
      and refused as unassociated otherwise. */
  lemma SchemelessUriDecision(tech: Tech, w: World, nativeUriOf: ThingId -> Result<Uri>, fe: ThingId, uri: Uri)
    requires !IsAbsolute(uri)
    ensures var r := GetRelativeUriForFunctionalEndpoint(tech, w, nativeUriOf, fe, uri);
      && (uri.path == Some("") ==> r == Failure(IndexOutOfBounds))
      && (uri.path.Some? && |uri.path.value| > 0 && uri.path.value[0] != '/' ==> r == Failure(UnknownResource))
      && (uri.path.None? || (|uri.path.value| > 0 && uri.path.value[0] == '/') ==>
            (r == Success(uri) <==> HostedBy(tech, w, fe)) &&
            (!HostedBy(tech, w, fe) ==> r == Failure(UnassociatedResource)))
  {
  }

  /** A URI with a scheme: the result differs from the input exactly when scheme and authority
      both match the Thing's native URI, and then only scheme and authority are dropped. */
  lemma AbsoluteUriDecision(tech: Tech, w: World, nativeUriOf: ThingId -> Result<Uri>, fe: ThingId, uri: Uri)
    requires IsAbsolute(uri)
    ensures var r := GetRelativeUriForFunctionalEndpoint(tech, w, nativeUriOf, fe, uri);
      && (nativeUriOf(fe).Failure? ==> r == Failure(nativeUriOf(fe).error))
      && (nativeUriOf(fe).Success? ==>
            var feUri := nativeUriOf(fe).value;
            r.Success? &&
            (r.value != uri <==> uri.scheme == feUri.scheme && uri.authority == feUri.authority) &&
            (r.value != uri ==> r.value == Uri(None, None, uri.path, uri.query, uri.fragment)))
  {
  }

  /** Putting the Thing's native scheme and authority back on the result of the conversion
      gives back the URI that was converted, for every URI with a scheme. */
  lemma AbsoluteUriRoundTrip(tech: Tech, w: World, nativeUriOf: ThingId -> Result<Uri>, fe: ThingId, uri: Uri)
    requires IsAbsolute(uri) && nativeUriOf(fe).Success?
    ensures var r := GetRelativeUriForFunctionalEndpoint(tech, w, nativeUriOf, fe, uri);
      r.Success? && WithSchemeAndAuthorityOf(r.value, nativeUriOf(fe).value) == uri
  {
  }
}
