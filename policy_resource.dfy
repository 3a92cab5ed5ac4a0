/** The resource transformer: one resource record becomes the wire record
    ("policy resource") that is uploaded for policy evaluation. */
module PolicyResources {
  import opened Wrappers
  import opened Strings
  import opened Gjson
  import opened Sorting
  import opened ValueFilter

  /** A resource as the upstream resource graph describes it (the fields the
      transformer reads). References point to other resources, of which only
      the address is read. `rawValuesText` is the raw JSON text that
      `rawValues` was parsed from. */
  datatype ResourceData = ResourceData(
    resourceType: string,
    providerName: string,
    address: string,
    tags: Option<map<string, string>>,
    rawValues: Json,
    rawValuesText: string,
    referencesMap: map<string, seq<ResourceData>>,
    metadata: map<string, Json>)

  datatype Tag = Tag(key: string, value: string)

  datatype Reference = Reference(key: string, addresses: seq<string>)

  datatype MetadataCall = MetadataCall(filename: string, blockName: string, startLine: int, endLine: int)

  /** An empty `calls` list is a nil slice in the source and is written as
      JSON null. */
  datatype InfracostMetadata = InfracostMetadata(
    calls: seq<MetadataCall>,
    checksum: string,
    endLine: int,
    filename: string,
    startLine: int)

  /** The wire record. `tags` is None when the resource has no tag map (the
      field is omitted) and Some of a possibly empty list otherwise; `values`
      is the filtered tree that is serialised with sorted keys. */
  datatype PolicyResource = PolicyResource(
    resourceType: string,
    providerName: string,
    address: string,
    tags: Option<seq<Tag>>,
    values: map<string, Json>,
    references: seq<Reference>,
    metadata: InfracostMetadata)

  function TagKey(t: Tag): string { t.key }

  function ReferenceKey(r: Reference): string { r.key }

  /** The tag list of a tag map: one entry per map entry, ordered by key. */
  ghost function SortedTags(m: map<string, string>): (r: seq<Tag>)
    ensures |r| == |m|
    ensures forall t :: t in r <==> t.key in m && m[t.key] == t.value
    ensures StrictlySortedBy(r, TagKey)
  {
    var ks := SortedKeys(m.Keys);
    var r := seq(|ks|, i requires 0 <= i < |ks| => Tag(ks[i], m[ks[i]]));
    TagListMembers(m, ks, r);
    KeyedBySorted(ks, r, TagKey);
    r
  }

  /** A list holding, position by position, the entries of the keys `ks`
      holds exactly the map's entries. */
  lemma TagListMembers(m: map<string, string>, ks: seq<string>, r: seq<Tag>)
    requires forall k :: k in ks <==> k in m
    requires |r| == |ks| && forall i :: 0 <= i < |ks| ==> r[i] == Tag(ks[i], m[ks[i]])
    ensures forall t :: t in r <==> t.key in m && m[t.key] == t.value
  {
    forall t: Tag | t.key in m && m[t.key] == t.value
      ensures t in r
    {
      var i :| 0 <= i < |ks| && ks[i] == t.key;
      assert r[i] == t;
    }
  }

  /** The addresses of the referenced resources, in their given order. */
  function AddressesOf(refs: seq<ResourceData>): (r: seq<string>)
    ensures |r| == |refs|
  {
    seq(|refs|, i requires 0 <= i < |refs| => refs[i].address)
  }

  /** The reference list: one entry per reference key, ordered by key, each
      holding the addresses of that key's resources in order. */
  ghost function SortedReferences(refs: map<string, seq<ResourceData>>): (r: seq<Reference>)
    ensures |r| == |refs|
    ensures forall x :: x in r <==> x.key in refs && x.addresses == AddressesOf(refs[x.key])
    ensures StrictlySortedBy(r, ReferenceKey)
  {
    var ks := SortedKeys(refs.Keys);
    var r := seq(|ks|, i requires 0 <= i < |ks| => Reference(ks[i], AddressesOf(refs[ks[i]])));
    ReferenceListMembers(refs, ks, r);
    KeyedBySorted(ks, r, ReferenceKey);
    r
  }

  /** A list holding, position by position, the references of the keys `ks`
      holds exactly one reference per key of the map. */
  lemma ReferenceListMembers(refs: map<string, seq<ResourceData>>, ks: seq<string>, r: seq<Reference>)
    requires forall k :: k in ks <==> k in refs
    requires |r| == |ks| && forall i :: 0 <= i < |ks| ==> r[i] == Reference(ks[i], AddressesOf(refs[ks[i]]))
    ensures forall x :: x in r <==> x.key in refs && x.addresses == AddressesOf(refs[x.key])
  {
    forall x: Reference | x.key in refs && x.addresses == AddressesOf(refs[x.key])
      ensures x in r
    {
      var i :| 0 <= i < |ks| && ks[i] == x.key;
      assert r[i] == x;
    }
  }

  /** One call entry per element of the resource's `calls` metadata: the
      block name comes from the call, the file name and line range from the
      resource's own metadata. */
  function CallsOf(md: map<string, Json>): (r: seq<MetadataCall>) {
    var calls := AsArray(Lookup(md, "calls"));
    seq(|calls|, i requires 0 <= i < |calls| =>
      MetadataCall(
        AsString(Lookup(md, "filename")),
        AsString(Get(Some(calls[i]), "blockName")),
        AsInt(Lookup(md, "startLine")),
        AsInt(Lookup(md, "endLine"))))
  }

  /** The bytes hashed by `calcChecksum`, in order: provider name, address,
      then the raw (unfiltered) values text. */
  function ChecksumInput(rd: ResourceData): (input: string) {
    rd.providerName + rd.address + rd.rawValuesText
  }

  /** `calcChecksum`: the hex SHA-256 digest of the checksum input. `digest`
      stands for SHA-256 over the UTF-8 bytes followed by hex encoding. */
  function CalcChecksum(rd: ResourceData, digest: string -> string): (sum: string) {
    digest(ChecksumInput(rd))
  }

  /** The checksum recorded in the metadata, or the locally computed one when
      the metadata has none. */
  function Checksum(rd: ResourceData, digest: string -> string): (c: string)
    ensures AsString(Lookup(rd.metadata, "checksum")) != "" ==> c == AsString(Lookup(rd.metadata, "checksum"))
    ensures AsString(Lookup(rd.metadata, "checksum")) == "" ==> c == digest(rd.providerName + rd.address + rd.rawValuesText)
  {
    var recorded := AsString(Lookup(rd.metadata, "checksum"));
    if recorded == "" then CalcChecksum(rd, digest) else recorded
  }

  /** What `filterResource` builds from `rd` under the allow-list `al`. */
  ghost function PolicyResourceOf(rd: ResourceData, al: AllowList, digest: string -> string): PolicyResource {
    PolicyResource(
      rd.resourceType,
      rd.providerName,
      rd.address,
      match rd.tags
      case None => None
      case Some(m) => Some(SortedTags(m)),
      FilterValues(rd.rawValues, al),
      SortedReferences(rd.referencesMap),
      InfracostMetadata(
        CallsOf(rd.metadata),
        Checksum(rd, digest),
        AsInt(Lookup(rd.metadata, "endLine")),
        AsString(Lookup(rd.metadata, "filename")),
        AsInt(Lookup(rd.metadata, "startLine"))))
  }

  /** The tag loop of `filterResource`: the map's entries, in the map's
      iteration order. */
  method GatherTags(m: map<string, string>) returns (collected: seq<Tag>)
    ensures forall t :: t in collected <==> t.key in m && m[t.key] == t.value
    ensures DistinctKeys(collected, TagKey)
  {
    collected := [];
    var remaining := m.Keys;
    ghost var done: set<string> := {};
    ghost var pos: map<string, nat> := map[];
    while remaining != {}
      invariant remaining + done == m.Keys && remaining !! done
      invariant forall i :: 0 <= i < |collected| ==> collected[i].key in done && collected[i].value == m[collected[i].key]
      invariant forall k :: k in done ==> k in pos && pos[k] < |collected| && collected[pos[k]].key == k
      invariant DistinctKeys(collected, TagKey)
      decreases remaining
    {
      var k :| k in remaining;
      AppendFreshKey(collected, Tag(k, m[k]), TagKey);
      pos := pos[k := |collected|];
      collected := collected + [Tag(k, m[k])];
      remaining := remaining - {k};
      done := done + {k};
    }
    forall t: Tag | t.key in m && m[t.key] == t.value
      ensures t in collected
    {
      assert collected[pos[t.key]] == t;
    }
  }

  /** The tags of `filterResource`: the gathered entries sorted in place by
      key. */
  method CollectTags(m: map<string, string>) returns (tags: seq<Tag>)
    ensures tags == SortedTags(m)
  {
    var collected := GatherTags(m);
    var a := new Tag[|collected|](i requires 0 <= i < |collected| => collected[i]);
    assert a[..] == collected;
    SortBy(a, TagKey);
    tags := a[..];
    SortedArrangementIsUnique(tags, collected, SortedTags(m), TagKey);
  }

  /** The inner loop over one reference key: the referenced addresses in
      order. */
  method CollectAddresses(refs: seq<ResourceData>) returns (addresses: seq<string>)
    ensures addresses == AddressesOf(refs)
  {
    addresses := [];
    for i := 0 to |refs|
      invariant addresses == AddressesOf(refs[..i])
    {
      assert refs[..i + 1] == refs[..i] + [refs[i]];
      addresses := addresses + [refs[i].address];
    }
    assert refs[..|refs|] == refs;
  }

  /** The reference loop of `filterResource`: one entry per key, in the
      map's iteration order. */
  method GatherReferences(refs: map<string, seq<ResourceData>>) returns (collected: seq<Reference>)
    ensures forall x :: x in collected <==> x.key in refs && x.addresses == AddressesOf(refs[x.key])
    ensures DistinctKeys(collected, ReferenceKey)
  {
    collected := [];
    var remaining := refs.Keys;
    ghost var done: set<string> := {};
    ghost var pos: map<string, nat> := map[];
    while remaining != {}
      invariant remaining + done == refs.Keys && remaining !! done
      invariant forall i :: 0 <= i < |collected| ==>
        collected[i].key in done && collected[i].addresses == AddressesOf(refs[collected[i].key])
      invariant forall k :: k in done ==> k in pos && pos[k] < |collected| && collected[pos[k]].key == k
      invariant DistinctKeys(collected, ReferenceKey)
      decreases remaining
    {
      var k :| k in remaining;
      var addresses := CollectAddresses(refs[k]);
      AppendFreshKey(collected, Reference(k, addresses), ReferenceKey);
      pos := pos[k := |collected|];
      collected := collected + [Reference(k, addresses)];
      remaining := remaining - {k};
      done := done + {k};
    }
    forall x: Reference | x.key in refs && x.addresses == AddressesOf(refs[x.key])
      ensures x in collected
    {
      assert collected[pos[x.key]] == x;
    }
  }

  /** The references of `filterResource`: the gathered entries sorted in
      place by key. */
  method CollectReferences(refs: map<string, seq<ResourceData>>) returns (references: seq<Reference>)
    ensures references == SortedReferences(refs)
  {
    var collected := GatherReferences(refs);
    var a := new Reference[|collected|](i requires 0 <= i < |collected| => collected[i]);
    assert a[..] == collected;
    SortBy(a, ReferenceKey);
    references := a[..];
    SortedArrangementIsUnique(references, collected, SortedReferences(refs), ReferenceKey);
  }

  /** The call loop of `filterResource`. */
  method CollectCalls(md: map<string, Json>) returns (calls: seq<MetadataCall>)
    ensures calls == CallsOf(md)
  {
    var elems := AsArray(Lookup(md, "calls"));
    calls := [];
    for i := 0 to |elems|
      invariant |calls| == i
      invariant forall j :: 0 <= j < i ==> calls[j] == CallsOf(md)[j]
    {
      calls := calls + [MetadataCall(
        AsString(Lookup(md, "filename")),
        AsString(Get(Some(elems[i]), "blockName")),
        AsInt(Lookup(md, "startLine")),
        AsInt(Lookup(md, "endLine")))];
    }
  }

  /** `filterResource`. */
  method FilterResource(rd: ResourceData, al: AllowList, digest: string -> string) returns (p: PolicyResource)
    ensures p == PolicyResourceOf(rd, al, digest)
  {
    var tagsPtr: Option<seq<Tag>> := None;
    if rd.tags.Some? {
      var tags := CollectTags(rd.tags.value);
      tagsPtr := Some(tags);
    }
    var values := FilterValues(rd.rawValues, al);
    var references := CollectReferences(rd.referencesMap);
    var calls := CollectCalls(rd.metadata);
    var checksum := AsString(Lookup(rd.metadata, "checksum"));
    if checksum == "" {
      checksum := CalcChecksum(rd, digest);
    }
    p := PolicyResource(
      rd.resourceType,
      rd.providerName,
      rd.address,
      tagsPtr,
      values,
      references,
      InfracostMetadata(
        calls,
        checksum,
        AsInt(Lookup(rd.metadata, "endLine")),
        AsString(Lookup(rd.metadata, "filename")),
        AsInt(Lookup(rd.metadata, "startLine"))));
  }

  /** Tags are three-state: no tag map gives no tag list (the field is
      omitted), an empty map an empty but present list, and otherwise the
      list holds exactly the map's entries ordered by key. */
  lemma TagsThreeState(rd: ResourceData, al: AllowList, digest: string -> string)
    ensures var p := PolicyResourceOf(rd, al, digest);
      (rd.tags.None? <==> p.tags.None?) &&
      (rd.tags.Some? ==>
        |p.tags.value| == |rd.tags.value| &&
        (rd.tags.value == map[] <==> p.tags.value == []) &&
        (forall t :: t in p.tags.value <==> t.key in rd.tags.value && rd.tags.value[t.key] == t.value) &&
        (forall i, j :: 0 <= i < j < |p.tags.value| ==> LexLess(p.tags.value[i].key, p.tags.value[j].key)))
  {
  }

  /** References: one entry per reference key, ordered by key, each listing
      the referenced addresses in their given order. */
  lemma ReferencesByKey(rd: ResourceData, al: AllowList, digest: string -> string)
    ensures var refs := PolicyResourceOf(rd, al, digest).references;
      |refs| == |rd.referencesMap| &&
      (forall i, j :: 0 <= i < j < |refs| ==> LexLess(refs[i].key, refs[j].key)) &&
      forall x :: x in refs ==>
        x.key in rd.referencesMap &&
        |x.addresses| == |rd.referencesMap[x.key]| &&
        forall n :: 0 <= n < |x.addresses| ==> x.addresses[n] == rd.referencesMap[x.key][n].address
  {
    var refs := PolicyResourceOf(rd, al, digest).references;
    assert forall i, j :: 0 <= i < j < |refs| ==> LexLess(ReferenceKey(refs[i]), ReferenceKey(refs[j]));
  }

  /** Each metadata call takes its block name from the call itself, and its
      file name and line range from the resource's own metadata, so they
      repeat the record-level values for every call. */
  lemma CallsReuseResourceLines(rd: ResourceData, al: AllowList, digest: string -> string)
    ensures var md := PolicyResourceOf(rd, al, digest).metadata;
      var source := AsArray(Lookup(rd.metadata, "calls"));
      |md.calls| == |source| &&
      forall i :: 0 <= i < |md.calls| ==>
        md.calls[i].blockName == AsString(Get(Some(source[i]), "blockName")) &&
        md.calls[i].filename == md.filename &&
        md.calls[i].startLine == md.startLine &&
        md.calls[i].endLine == md.endLine
  {
  }

  /** The uploaded values never hold a field the allow-list does not permit,
      at any depth. */
  lemma ValuesArePermitted(rd: ResourceData, al: AllowList, digest: string -> string)
    ensures Permitted(Obj(PolicyResourceOf(rd, al, digest).values), al)
  {
  }

  /** The checksum depends only on provider name, address, raw values text
      and the recorded checksum: not on the allow-list, tags or references. */
  lemma ChecksumDeterministic(rd1: ResourceData, rd2: ResourceData, al1: AllowList, al2: AllowList, digest: string -> string)
    requires rd1.providerName == rd2.providerName && rd1.address == rd2.address
    requires rd1.rawValuesText == rd2.rawValuesText
    requires Lookup(rd1.metadata, "checksum") == Lookup(rd2.metadata, "checksum")
    ensures PolicyResourceOf(rd1, al1, digest).metadata.checksum == PolicyResourceOf(rd2, al2, digest).metadata.checksum
  {
  }

  lemma PrefixCancel(x: string, y: string, z: string)
    requires x + z == y + z
    ensures x == y
  {
    assert |x| == |y|;
    assert x == (x + z)[..|x|] && y == (y + z)[..|y|];
  }

  lemma SuffixCancel(x: string, y: string, z: string)
    requires z + x == z + y
    ensures x == y
  {
    assert x == (z + x)[|z|..] && y == (z + y)[|z|..];
  }

  /** Changing exactly one of provider name, address and raw values text
      changes the digest input. */
  lemma ChecksumInputSeparatesSingleChanges(rd1: ResourceData, rd2: ResourceData)
    requires ChecksumInput(rd1) == ChecksumInput(rd2)
    requires (rd1.providerName == rd2.providerName && rd1.address == rd2.address) ||
             (rd1.providerName == rd2.providerName && rd1.rawValuesText == rd2.rawValuesText) ||
             (rd1.address == rd2.address && rd1.rawValuesText == rd2.rawValuesText)
    ensures rd1.providerName == rd2.providerName
    ensures rd1.address == rd2.address
    ensures rd1.rawValuesText == rd2.rawValuesText
  {
    var p1, a1, t1 := rd1.providerName, rd1.address, rd1.rawValuesText;
    var p2, a2, t2 := rd2.providerName, rd2.address, rd2.rawValuesText;
    assert p1 + a1 + t1 == p1 + (a1 + t1) && p2 + a2 + t2 == p2 + (a2 + t2);
    if p1 == p2 && a1 == a2 {
      SuffixCancel(t1, t2, p1 + a1);
    } else if p1 == p2 {
      SuffixCancel(a1 + t1, a2 + t2, p1);
      PrefixCancel(a1, a2, t1);
    } else {
      PrefixCancel(p1, p2, a1 + t1);
    }
  }

  /** The three fields are concatenated without a separator, so moving text
      from the provider name into the address leaves the digest input, and
      hence the fallback checksum, unchanged. */
  lemma ChecksumInputBoundaryShift(rd1: ResourceData, rd2: ResourceData)
    requires rd1.providerName == "aws" && rd1.address == "_instance.web"
    requires rd2.providerName == "aws_" && rd2.address == "instance.web"
    requires rd1.rawValuesText == rd2.rawValuesText
    ensures ChecksumInput(rd1) == ChecksumInput(rd2)
  {
    assert rd1.providerName + rd1.address == rd2.providerName + rd2.address;
  }
}
