/** The batch assembler: a project's resources, filtered, transformed and
    ordered by address for upload. */
module Batch {
  import opened Wrappers
  import opened Strings
  import opened Sorting
  import opened ValueFilter
  import opened PolicyResources

  /** A partial resource; only its resource data is read here (None is a
      nil reference). */
  datatype PartialResource = PartialResource(resourceData: Option<ResourceData>)

  function AddressOf(p: PolicyResource): string { p.address }

  /** The resources that are uploaded: present, with data, and of a type the
      allow-lists name (a nil partial is the None element). */
  predicate Selected(p: Option<PartialResource>, allowLists: map<string, AllowList>) {
    p.Some? && p.value.resourceData.Some? && p.value.resourceData.value.resourceType in allowLists
  }

  /** How one selected resource becomes its wire record. */
  type Builder = (ResourceData, AllowList) -> PolicyResource

  /** The record transform of `filterResource`, with checksum digest `digest`. */
  ghost function Transform(digest: string -> string): Builder {
    (rd, al) => PolicyResourceOf(rd, al, digest)
  }

  /** The selected resources, transformed by `build`, in input order. */
  ghost function Expected(ps: seq<Option<PartialResource>>, allowLists: map<string, AllowList>, build: Builder): (r: seq<PolicyResource>)
    decreases |ps|
  {
    if ps == [] then []
    else
      var last := ps[|ps| - 1];
      Expected(ps[..|ps| - 1], allowLists, build) +
      if Selected(last, allowLists) then
        var rd := last.value.resourceData.value;
        [build(rd, allowLists[rd.resourceType])]
      else []
  }

  /** `filterResources`. */
  method FilterResources(partials: seq<Option<PartialResource>>, allowLists: map<string, AllowList>, digest: string -> string)
    returns (r: seq<PolicyResource>)
    ensures SortedBy(r, AddressOf)
    ensures multiset(r) == multiset(Expected(partials, allowLists, Transform(digest)))
  {
    var p2rs: seq<PolicyResource> := [];
    for i := 0 to |partials|
      invariant p2rs == Expected(partials[..i], allowLists, Transform(digest))
    {
      assert partials[..i + 1][..i] == partials[..i];
      var partial := partials[i];
      if partial.Some? && partial.value.resourceData.Some? {
        var rd := partial.value.resourceData.value;
        if rd.resourceType in allowLists {
          var p := FilterResource(rd, allowLists[rd.resourceType], digest);
          p2rs := p2rs + [p];
        }
      }
    }
    assert partials[..|partials|] == partials;
    var a := new PolicyResource[|p2rs|](i requires 0 <= i < |p2rs| => p2rs[i]);
    assert a[..] == p2rs;
    SortBy(a, AddressOf);
    r := a[..];
  }

  /** `p` is the record built from the selected input `x`. */
  ghost predicate Produces(x: Option<PartialResource>, allowLists: map<string, AllowList>, build: Builder, p: PolicyResource) {
    Selected(x, allowLists) &&
    p == build(x.value.resourceData.value, allowLists[x.value.resourceData.value.resourceType])
  }

  /** One step of `Expected`: the records of a non-empty input are those of
      all but its last element, and the one its last element produces. */
  lemma ExpectedStep(ps: seq<Option<PartialResource>>, allowLists: map<string, AllowList>, build: Builder, p: PolicyResource)
    requires ps != []
    ensures p in Expected(ps, allowLists, build) <==>
      p in Expected(ps[..|ps| - 1], allowLists, build) || Produces(ps[|ps| - 1], allowLists, build, p)
  {
  }

  /** An uploaded record is exactly the transform of a selected input. */
  lemma {:induction false} ExpectedMembership(ps: seq<Option<PartialResource>>, allowLists: map<string, AllowList>, build: Builder, p: PolicyResource)
    ensures p in Expected(ps, allowLists, build) <==> exists i :: 0 <= i < |ps| && Produces(ps[i], allowLists, build, p)
    decreases |ps|
  {
    if ps != [] {
      var init := ps[..|ps| - 1];
      ExpectedMembership(init, allowLists, build, p);
      ExpectedStep(ps, allowLists, build, p);
      if p in Expected(init, allowLists, build) {
        var i :| 0 <= i < |init| && Produces(init[i], allowLists, build, p);
        assert ps[i] == init[i];
        assert Produces(ps[i], allowLists, build, p);
      } else if Produces(ps[|ps| - 1], allowLists, build, p) {
        assert 0 <= |ps| - 1 < |ps|;
      } else {
        forall i | 0 <= i < |ps|
          ensures !Produces(ps[i], allowLists, build, p)
        {
          if i < |init| {
            assert init[i] == ps[i];
          }
        }
      }
    }
  }

  /** Every uploaded record has an allow-listed resource type. */
  lemma ExpectedTypesAllowListed(ps: seq<Option<PartialResource>>, allowLists: map<string, AllowList>, digest: string -> string)
    ensures forall p :: p in Expected(ps, allowLists, Transform(digest)) ==> p.resourceType in allowLists
  {
    forall p | p in Expected(ps, allowLists, Transform(digest))
      ensures p.resourceType in allowLists
    {
      ExpectedMembership(ps, allowLists, Transform(digest), p);
    }
  }

  /** The batch is empty exactly when no input is selected. */
  lemma {:induction false} ExpectedEmpty(ps: seq<Option<PartialResource>>, allowLists: map<string, AllowList>, build: Builder)
    ensures Expected(ps, allowLists, build) == [] <==> forall i :: 0 <= i < |ps| ==> !Selected(ps[i], allowLists)
    decreases |ps|
  {
    if ps != [] {
      var init := ps[..|ps| - 1];
      ExpectedEmpty(init, allowLists, build);
      assert forall i :: 0 <= i < |init| ==> init[i] == ps[i];
    }
  }

  /** What `filterResources` returns is a sorted arrangement of the selected
      resources' transforms: empty exactly when nothing was selected. */
  lemma BatchContents(partials: seq<Option<PartialResource>>, allowLists: map<string, AllowList>, digest: string -> string, r: seq<PolicyResource>)
    requires multiset(r) == multiset(Expected(partials, allowLists, Transform(digest)))
    ensures |r| == |Expected(partials, allowLists, Transform(digest))|
    ensures r == [] <==> forall i :: 0 <= i < |partials| ==> !Selected(partials[i], allowLists)
    ensures forall p :: p in r ==> p.resourceType in allowLists
  {
    var e := Expected(partials, allowLists, Transform(digest));
    assert |r| == |multiset(r)| == |multiset(e)| == |e|;
    ExpectedEmpty(partials, allowLists, Transform(digest));
    ExpectedTypesAllowListed(partials, allowLists, digest);
    forall p | p in r
      ensures p.resourceType in allowLists
    {
      assert p in multiset(e);
    }
  }
}
