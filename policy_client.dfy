/** The policy API client: the once-only allow-list fetch, the upload of a
    project's filtered resources, and the handling of the policy-check
    response. Network calls are not modelled; their outcomes are inputs. */
module PolicyClient {
  import opened Wrappers
  import opened Strings
  import opened Gjson
  import opened Sorting
  import opened ValueFilter
  import opened PolicyResources
  import opened Batch

  /** How a GraphQL query came back: `doQueries` failed, it returned no
      results, the first result's envelope has an `errors` member (its
      text), its `data` did not decode, or it decoded to a value. */
  datatype QueryResponse<T> =
    | TransportFailed(err: string)
    | NoResults
    | GraphqlErrors(errors: string)
    | UnmarshalFailed(err: string)
    | Data(value: T)

  /** One element of the `policyResourceAllowList` response; `allowed` is
      the parsed rule tree. */
  datatype AllowListEntry = AllowListEntry(resourceType: string, allowed: Json)

  /** The allow-list map of a response: each entry's rule tree under its
      type, a later entry for a type replacing an earlier one. A rule tree
      that is not an object gives an empty allow-list. */
  function AllowListsOf(entries: seq<AllowListEntry>): (m: map<string, AllowList>)
    decreases |entries|
  {
    if entries == [] then map[]
    else
      var last := entries[|entries| - 1];
      AllowListsOf(entries[..|entries| - 1])[last.resourceType := AsMap(last.allowed)]
  }

  /** The map-filling loop of `getPolicyResourceAllowList`. */
  method BuildAllowLists(entries: seq<AllowListEntry>) returns (aw: map<string, AllowList>)
    ensures aw == AllowListsOf(entries)
  {
    aw := map[];
    for i := 0 to |entries|
      invariant aw == AllowListsOf(entries[..i])
    {
      assert entries[..i + 1][..i] == entries[..i];
      aw := aw[entries[i].resourceType := AsMap(entries[i].allowed)];
    }
    assert entries[..|entries|] == entries;
  }

  /** The outcome of `getPolicyResourceAllowList`: the map (None is a nil
      map) and the error (None is nil). */
  function AllowListResult(resp: QueryResponse<seq<AllowListEntry>>): (r: (Option<map<string, AllowList>>, Option<string>)) {
    match resp
    case TransportFailed(e) => (None, Some("query policyResourceAllowList failed " + e))
    case NoResults => (None, None)
    case GraphqlErrors(t) => (None, Some("query policyResourceAllowList failed, received graphql error: " + t))
    case UnmarshalFailed(e) => (None, Some("failed to unmarshal policyResourceAllowList " + e))
    case Data(entries) => (Some(AllowListsOf(entries)), None)
  }

  /** `getPolicyResourceAllowList`. */
  method GetPolicyResourceAllowList(resp: QueryResponse<seq<AllowListEntry>>)
    returns (lists: Option<map<string, AllowList>>, err: Option<string>)
    ensures err.Some? ==> lists.None?
    ensures resp.NoResults? ==> lists.None? && err.None?
    ensures resp.Data? ==> err.None? && lists == Some(AllowListsOf(resp.value))
    ensures (lists, err) == AllowListResult(resp)
  {
    match resp
    case TransportFailed(e) =>
      lists, err := None, Some("query policyResourceAllowList failed " + e);
    case NoResults =>
      lists, err := None, None;
    case GraphqlErrors(t) =>
      lists, err := None, Some("query policyResourceAllowList failed, received graphql error: " + t);
    case UnmarshalFailed(e) =>
      lists, err := None, Some("failed to unmarshal policyResourceAllowList " + e);
    case Data(entries) =>
      var aw := BuildAllowLists(entries);
      lists, err := Some(aw), None;
  }

  /** The allow-list map names exactly the types that occur in the response. */
  lemma {:induction false} AllowListsKeys(entries: seq<AllowListEntry>, t: string)
    ensures t in AllowListsOf(entries) <==> exists i :: 0 <= i < |entries| && entries[i].resourceType == t
    decreases |entries|
  {
    if entries != [] {
      var init := entries[..|entries| - 1];
      AllowListsKeys(init, t);
      assert forall i :: 0 <= i < |init| ==> init[i] == entries[i];
    }
  }

  /** For a type listed more than once, the last entry wins. */
  lemma {:induction false} AllowListsLastWins(entries: seq<AllowListEntry>, i: nat)
    requires i < |entries|
    requires forall j :: i < j < |entries| ==> entries[j].resourceType != entries[i].resourceType
    ensures entries[i].resourceType in AllowListsOf(entries)
    ensures AllowListsOf(entries)[entries[i].resourceType] == AsMap(entries[i].allowed)
    decreases |entries|
  {
    if i < |entries| - 1 {
      var init := entries[..|entries| - 1];
      assert forall j :: i < j < |init| ==> init[j] == entries[j];
      AllowListsLastWins(init, i);
    }
  }

  /** How the `storePolicyResources` mutation of `uploadProjectPolicyData`
      came back: the sha the service assigned, or an error. No results give
      an empty sha and no error. */
  function UploadResult(resp: QueryResponse<string>): (r: Result<string>)
    ensures resp.NoResults? ==> r == Ok("")
    ensures resp.Data? ==> r == Ok(resp.value)
    ensures r.Err? <==> resp.TransportFailed? || resp.GraphqlErrors? || resp.UnmarshalFailed?
  {
    match resp
    case TransportFailed(e) => Err("query storePolicyResources failed  " + e)
    case NoResults => Ok("")
    case GraphqlErrors(t) => Err("query storePolicyResources failed, received graphql error: " + t)
    case UnmarshalFailed(e) => Err("failed to unmarshal storePolicyResources " + e)
    case Data(sha) => Ok(sha)
  }

  /** The service's answer to the n-th upload the client makes (counting
      from 0 over the client's lifetime), sending the given batch. Two
      uploads of the same batch may get different answers. */
  type Uploader = (nat, seq<PolicyResource>) -> QueryResponse<string>

  /** The batches the upload step of a resource set sends: the batch itself
      when it is non-empty, and nothing otherwise. */
  function Sent(batch: seq<PolicyResource>): (sent: seq<seq<PolicyResource>>)
    ensures |sent| <= 1 && (forall b :: b in sent ==> b == batch && b != [])
    ensures batch != [] ==> sent == [batch]
  {
    if |batch| > 0 then [batch] else []
  }

  /** The sha recorded for one filtered batch, uploaded as call number
      `call`: the sentinel "0" when the batch is empty (nothing is uploaded),
      the uploaded batch's sha otherwise; an upload error is wrapped with
      `context`. */
  function PolicyShaOf(batch: seq<PolicyResource>, upload: Uploader, call: nat, context: string): (r: Result<string>)
    ensures batch == [] ==> r == Ok("0")
    ensures batch != [] ==> (r.Err? <==> UploadResult(upload(call, batch)).Err?)
    ensures batch != [] && r.Ok? ==> r.value == UploadResult(upload(call, batch)).value
    ensures batch != [] && r.Err? ==> r.error == context + UploadResult(upload(call, batch)).error
  {
    if |batch| > 0 then
      match UploadResult(upload(call, batch))
      case Ok(sha) => Ok(sha)
      case Err(e) => Err(context + e)
    else Ok("0")
  }

  /** A project resource set with nothing allow-listed records the sentinel
      and uploads nothing. */
  lemma SentinelWhenNothingSelected(partials: seq<Option<PartialResource>>, allowLists: map<string, AllowList>,
                                    digest: string -> string, batch: seq<PolicyResource>,
                                    upload: Uploader, call: nat, context: string)
    requires multiset(batch) == multiset(Expected(partials, allowLists, Transform(digest)))
    requires forall i :: 0 <= i < |partials| ==> !Selected(partials[i], allowLists)
    ensures PolicyShaOf(batch, upload, call, context) == Ok("0")
    ensures Sent(batch) == []
  {
    BatchContents(partials, allowLists, digest, batch);
  }

  /** `schema.ProjectMetadata`, as far as the upload touches it. */
  datatype ProjectMetadata = ProjectMetadata(policySha: string, pastPolicySha: string)

  const CurrentContext := "failed to upload filtered partial resources "
  const PastContext := "failed to upload filtered past partial resources "

  /** What recording the sha of the batch `current` and then that of `past`
      leaves, the first upload being call number `call`: the error, the
      metadata and the batches sent, in order. A failed upload stops there. */
  function ShaOutcome(md: ProjectMetadata, current: seq<PolicyResource>, past: seq<PolicyResource>,
                      upload: Uploader, call: nat): (o: (Option<string>, ProjectMetadata, seq<seq<PolicyResource>>))
  {
    match PolicyShaOf(current, upload, call, CurrentContext)
    case Err(e) => (Some(e), md, Sent(current))
    case Ok(sha) =>
      var p := PastOutcome(md.(policySha := sha), past, upload, call + |Sent(current)|);
      (p.0, p.1, Sent(current) + p.2)
  }

  /** The second half of `ShaOutcome`: recording the sha of `past` once the
      current sha is in `md`, the upload being call number `call`. */
  function PastOutcome(md: ProjectMetadata, past: seq<PolicyResource>, upload: Uploader, call: nat):
    (o: (Option<string>, ProjectMetadata, seq<seq<PolicyResource>>))
  {
    match PolicyShaOf(past, upload, call, PastContext)
    case Err(e) => (Some(e), md, Sent(past))
    case Ok(pastSha) => (None, md.(pastPolicySha := pastSha), Sent(past))
  }

  /** `ShaOutcome` from the outcome of its second half: the current sha is
      `sha`, and recording the past sha from call number `pastCall` on gave
      the error `err`, the metadata `meta` and the log `log'`. */
  lemma ShaOutcomeFromPast(md: ProjectMetadata, current: seq<PolicyResource>, past: seq<PolicyResource>,
                           upload: Uploader, call: nat, sha: string, pastCall: nat,
                           log: seq<seq<PolicyResource>>, err: Option<string>, meta: ProjectMetadata,
                           log': seq<seq<PolicyResource>>)
    requires PolicyShaOf(current, upload, call, CurrentContext) == Ok(sha)
    requires pastCall == call + |Sent(current)|
    requires var p := PastOutcome(md.(policySha := sha), past, upload, pastCall);
      err == p.0 && meta == p.1 && log' == log + Sent(current) + p.2
    ensures var o := ShaOutcome(md, current, past, upload, call);
      err == o.0 && meta == o.1 && log' == log + o.2
  {
    var p := PastOutcome(md.(policySha := sha), past, upload, pastCall);
    assert log + (Sent(current) + p.2) == log + Sent(current) + p.2;
  }

  /** The uploads are exactly the non-empty batches, the current one first;
      the past batch is sent only when the current one did not fail. */
  lemma UploadLog(md: ProjectMetadata, current: seq<PolicyResource>, past: seq<PolicyResource>, upload: Uploader, call: nat)
    ensures var o := ShaOutcome(md, current, past, upload, call);
      o.2 == Sent(current) + (if PolicyShaOf(current, upload, call, CurrentContext).Ok? then Sent(past) else [])
    ensures forall b :: b in ShaOutcome(md, current, past, upload, call).2 ==> b != []
  {
  }

  /** After a failed upload of the current batch, only that batch was sent
      and neither sha is recorded. */
  lemma NoPastUploadAfterCurrentError(md: ProjectMetadata, current: seq<PolicyResource>, past: seq<PolicyResource>,
                                      upload: Uploader, call: nat)
    requires PolicyShaOf(current, upload, call, CurrentContext).Err?
    ensures var o := ShaOutcome(md, current, past, upload, call);
      o.0 == Some(PolicyShaOf(current, upload, call, CurrentContext).error) && o.1 == md && o.2 == [current]
  {
  }

  /** Answers that fail after the first call. */
  function FirstUploadOnly(call: nat, batch: seq<PolicyResource>): QueryResponse<string> {
    if call == 0 then Data("sha-1") else TransportFailed("unavailable")
  }

  /** The same batch uploaded twice is two calls: the current set's upload
      can succeed while an identical past set's upload fails, leaving the
      current sha recorded, the past sha untouched and both batches sent. */
  lemma PastUploadMayFailAfterCurrentSucceeds(md: ProjectMetadata, batch: seq<PolicyResource>)
    requires batch != []
    ensures ShaOutcome(md, batch, batch, FirstUploadOnly, 0) ==
      (Some(PastContext + ("query storePolicyResources failed  " + "unavailable")), md.(policySha := "sha-1"), [batch, batch])
  {
    assert Sent(batch) == [batch];
    assert PolicyShaOf(batch, FirstUploadOnly, 0, CurrentContext) == Ok("sha-1");
    assert PolicyShaOf(batch, FirstUploadOnly, 1, PastContext) ==
      Err(PastContext + ("query storePolicyResources failed  " + "unavailable"));
    assert PastOutcome(md.(policySha := "sha-1"), batch, FirstUploadOnly, 1).2 == [batch];
    assert [batch] + [batch] == [batch, batch];
  }

  /** `schema.Project`: its metadata (None is nil) and its current
      and past partial resources. */
  class Project {
    var metadata: Option<ProjectMetadata>
    const partialResources: seq<Option<PartialResource>>
    const partialPastResources: seq<Option<PartialResource>>

    constructor (metadata: Option<ProjectMetadata>, current: seq<Option<PartialResource>>, past: seq<Option<PartialResource>>)
      ensures this.metadata == metadata
      ensures partialResources == current && partialPastResources == past
    {
      this.metadata := metadata;
      partialResources := current;
      partialPastResources := past;
    }
  }

  /** `PolicyAPIClient` with its cached allow-lists. `done` is the state of
      the `sync.Once` guard; `fetches` counts how often the fetch ran and
      `uploads` logs the batches sent to `storePolicyResources`, in order.
      `uploadCount`, the number of uploads made so far, says which answer of
      the service the next upload gets. */
  class PolicyAPIClient {
    var allowLists: Option<map<string, AllowList>>
    var allowListErr: Option<string>
    var done: bool
    ghost var fetches: nat
    ghost var uploads: seq<seq<PolicyResource>>
    var uploadCount: nat

    /** The fetch has run once if the guard is set, and never otherwise;
        every upload made is logged. */
    ghost predicate Valid()
      reads this
    {
      fetches == (if done then 1 else 0) && uploadCount == |uploads| &&
      (!done ==> allowLists.None? && allowListErr.None?)
    }

    /** `NewPolicyAPIClient`: nothing fetched yet. */
    constructor ()
      ensures Valid() && !done && fetches == 0 && uploads == []
      ensures allowLists.None? && allowListErr.None?
    {
      allowLists, allowListErr, done, uploadCount := None, None, false, 0;
      fetches, uploads := 0, [];
    }

    /** `fetchAllowList`: the first call fetches (with the response `resp`)
        and stores the outcome; every call returns the stored error. */
    method FetchAllowList(resp: QueryResponse<seq<AllowListEntry>>) returns (err: Option<string>)
      requires Valid()
      modifies this`allowLists, this`allowListErr, this`done, this`fetches
      ensures Valid() && done && fetches <= 1
      ensures err == allowListErr
      ensures old(done) ==> allowLists == old(allowLists) && allowListErr == old(allowListErr) && fetches == old(fetches)
      ensures !old(done) ==> (allowLists, allowListErr) == AllowListResult(resp) && fetches == 1
      ensures uploads == old(uploads)
    {
      if !done {
        done := true;
        fetches := fetches + 1;
        var prw, e := GetPolicyResourceAllowList(resp);
        if e.Some? {
          allowListErr := e;
        }
        allowLists := prw;
      }
      err := allowListErr;
    }

    /** `uploadProjectPolicyData`: sends `batch` as the next upload and
        reads the sha from the answer. */
    method UploadProjectPolicyData(batch: seq<PolicyResource>, upload: Uploader) returns (r: Result<string>)
      requires Valid()
      modifies this`uploads, this`uploadCount
      ensures Valid()
      ensures uploads == old(uploads) + [batch]
      ensures r == UploadResult(upload(|old(uploads)|, batch))
    {
      r := UploadResult(upload(uploadCount, batch));
      uploads := uploads + [batch];
      uploadCount := uploadCount + 1;
    }

    /** The step `UploadPolicyData` takes for one resource set: upload the
        filtered batch when it is non-empty and give its sha, wrapping an
        upload error with `context`; give the sentinel "0" for an empty
        batch, which is not uploaded. */
    method UploadBatch(batch: seq<PolicyResource>, upload: Uploader, context: string) returns (r: Result<string>)
      requires Valid()
      modifies this`uploads, this`uploadCount
      ensures Valid()
      ensures uploads == old(uploads) + Sent(batch)
      ensures r == PolicyShaOf(batch, upload, |old(uploads)|, context)
    {
      if |batch| > 0 {
        var sha := UploadProjectPolicyData(batch, upload);
        if sha.Err? {
          return Err(context + sha.error);
        }
        r := Ok(sha.value);
      } else {
        r := Ok("0");
      }
    }

    /** The part of `UploadPolicyData` after a successful fetch: records
        the sha of the current resources filtered by `lists` and afterwards
        that of the past resources. `current` and `past` are the batches
        that were assembled. */
    method RecordShas(project: Project, lists: map<string, AllowList>, upload: Uploader, digest: string -> string)
      returns (err: Option<string>, ghost current: seq<PolicyResource>, ghost past: seq<PolicyResource>)
      requires Valid() && project.metadata.Some?
      modifies this`uploads, this`uploadCount, project`metadata
      ensures Valid()
      ensures SortedBy(current, AddressOf) &&
        multiset(current) == multiset(Expected(project.partialResources, lists, Transform(digest)))
      ensures PolicyShaOf(current, upload, |old(uploads)|, CurrentContext).Ok? ==>
        SortedBy(past, AddressOf) &&
        multiset(past) == multiset(Expected(project.partialPastResources, lists, Transform(digest)))
      ensures var o := ShaOutcome(old(project.metadata).value, current, past, upload, |old(uploads)|);
        err == o.0 && project.metadata == Some(o.1) && uploads == old(uploads) + o.2
    {
      ghost var md := project.metadata.value;
      ghost var log := uploads;
      ghost var call := |uploads|;
      past := [];
      var filtered := FilterResources(project.partialResources, lists, digest);
      current := filtered;
      var sha := UploadBatch(filtered, upload, CurrentContext);
      if sha.Err? {
        err := Some(sha.error);
        return;
      }
      project.metadata := Some(project.metadata.value.(policySha := sha.value));
      assert project.metadata.value == md.(policySha := sha.value);
      ghost var pastCall := |uploads|;
      ghost var log' := uploads;
      assert log' == log + Sent(current);
      err, past := RecordPast(project, lists, upload, digest);
      ShaOutcomeFromPast(md, current, past, upload, call, sha.value, pastCall, log, err, project.metadata.value, uploads);
    }

    /** The second half of `RecordShas`: records the sha of the past
        resources filtered by `lists`; `past` is the batch assembled. */
    method RecordPast(project: Project, lists: map<string, AllowList>, upload: Uploader, digest: string -> string)
      returns (err: Option<string>, ghost past: seq<PolicyResource>)
      requires Valid() && project.metadata.Some?
      modifies this`uploads, this`uploadCount, project`metadata
      ensures Valid()
      ensures SortedBy(past, AddressOf) &&
        multiset(past) == multiset(Expected(project.partialPastResources, lists, Transform(digest)))
      ensures var o := PastOutcome(old(project.metadata).value, past, upload, |old(uploads)|);
        err == o.0 && project.metadata == Some(o.1) && uploads == old(uploads) + o.2
    {
      var filtered := FilterResources(project.partialPastResources, lists, digest);
      past := filtered;
      var pastSha := UploadBatch(filtered, upload, PastContext);
      if pastSha.Err? {
        err := Some(pastSha.error);
        return;
      }
      project.metadata := Some(project.metadata.value.(pastPolicySha := pastSha.value));
      err := None;
    }

    /** `UploadPolicyData`: makes sure the project has metadata, fetches the
        allow-lists once, then records the sha of the current resources and
        afterwards that of the past resources. `current` and `past` are the
        batches that were assembled. */
    method UploadPolicyData(project: Project, resp: QueryResponse<seq<AllowListEntry>>,
                            upload: Uploader, digest: string -> string)
      returns (err: Option<string>, ghost current: seq<PolicyResource>, ghost past: seq<PolicyResource>)
      requires Valid()
      modifies this, project`metadata
      ensures Valid() && done
      ensures old(done) ==> allowLists == old(allowLists) && allowListErr == old(allowListErr) && fetches == old(fetches)
      ensures !old(done) ==> (allowLists, allowListErr) == AllowListResult(resp) && fetches == 1
      ensures project.metadata.Some?
      ensures allowListErr.Some? ==>
        err == allowListErr && uploads == old(uploads) &&
        project.metadata == Some(old(project.metadata).GetOr(ProjectMetadata("", "")))
      ensures allowListErr.None? ==>
        SortedBy(current, AddressOf) &&
        multiset(current) == multiset(Expected(project.partialResources, allowLists.GetOr(map[]), Transform(digest)))
      ensures allowListErr.None? && PolicyShaOf(current, upload, |old(uploads)|, CurrentContext).Ok? ==>
        SortedBy(past, AddressOf) &&
        multiset(past) == multiset(Expected(project.partialPastResources, allowLists.GetOr(map[]), Transform(digest)))
      ensures allowListErr.None? ==>
        var o := ShaOutcome(old(project.metadata).GetOr(ProjectMetadata("", "")), current, past, upload, |old(uploads)|);
        err == o.0 && project.metadata == Some(o.1) && uploads == old(uploads) + o.2
    {
      current, past := [], [];
      if project.metadata.None? {
        project.metadata := Some(ProjectMetadata("", ""));
      }
      assert project.metadata == Some(old(project.metadata).GetOr(ProjectMetadata("", "")));
      err := FetchAllowList(resp);
      if err.Some? {
        return;
      }
      err, current, past := RecordShas(project, allowLists.GetOr(map[]), upload, digest);
    }
  }

  /** The decoded `evaluatePolicies` result; the structure of a single tag
      or FinOps policy result is left abstract. */
  datatype PolicyOutput<T, F> = PolicyOutput(tagPolicies: seq<T>, finOpsPolicies: seq<F>)

  /** What `CheckPolicies` returns (None is a nil output) and the progress
      lines it writes, in order. */
  datatype CheckOutcome<T, F> = CheckOutcome(output: Option<PolicyOutput<T, F>>, messages: seq<string>)

  /** The "N <noun> checked" progress line, written only for a non-zero
      count; the plural noun is used for counts above one. */
  function CheckedMessage(count: nat, singular: string, plural: string): (r: Option<string>)
    ensures r.Some? <==> count > 0
  {
    if count > 0 then
      Some(NatToDecimal(count) + " " + (if count > 1 then plural else singular) + " checked")
    else None
  }

  function LeadingDigits(s: string): (d: string)
    ensures forall i :: 0 <= i < |d| ==> IsDigit(d[i])
    ensures |d| <= |s| && d == s[..|d|]
    decreases |s|
  {
    if s == [] || !IsDigit(s[0]) then [] else [s[0]] + LeadingDigits(s[1..])
  }

  lemma {:induction false} LeadingDigitsOfNumber(d: string, rest: string)
    requires forall i :: 0 <= i < |d| ==> IsDigit(d[i])
    requires rest == [] || !IsDigit(rest[0])
    ensures LeadingDigits(d + rest) == d
    decreases |d|
  {
    if d != [] {
      assert (d + rest)[1..] == d[1..] + rest;
      LeadingDigitsOfNumber(d[1..], rest);
    }
  }

  /** A progress line starts with the count, which reads back as the count,
      and continues with the singular noun for one policy and the plural
      otherwise. */
  lemma CheckedMessageShape(count: nat, singular: string, plural: string)
    requires count > 0
    ensures var m := CheckedMessage(count, singular, plural).value;
      var d := LeadingDigits(m);
      DigitsValue(d) == count &&
      m[|d|..] == " " + (if count == 1 then singular else plural) + " checked"
  {
    var d := NatToDecimal(count);
    var m := CheckedMessage(count, singular, plural).value;
    var tail := " " + (if count == 1 then singular else plural) + " checked";
    assert m == d + tail;
    LeadingDigitsOfNumber(d, tail);
    NatToDecimalRoundTrip(count);
  }

  /** The response handling of `CheckPolicies`: errors carry the query's
      error text, no results give a nil output and no error, and a decoded
      output is returned with one progress line per non-empty policy kind,
      tag policies first. */
  function CheckPolicies<T, F>(resp: QueryResponse<PolicyOutput<T, F>>): (r: Result<CheckOutcome<T, F>>)
    ensures r.Err? <==> resp.TransportFailed? || resp.GraphqlErrors? || resp.UnmarshalFailed?
    ensures resp.NoResults? ==> r == Ok(CheckOutcome(None, []))
    ensures resp.Data? ==>
      (r.Ok? && r.value.output == Some(resp.value) &&
       |r.value.messages| == (if |resp.value.tagPolicies| > 0 then 1 else 0) + (if |resp.value.finOpsPolicies| > 0 then 1 else 0))
    ensures resp.Data? && |resp.value.tagPolicies| > 0 ==>
      r.Ok? && r.value.messages[0] == CheckedMessage(|resp.value.tagPolicies|, "tag policy", "tag policies").value
    ensures resp.Data? && |resp.value.finOpsPolicies| > 0 ==>
      r.Ok? && r.value.messages[|r.value.messages| - 1] == CheckedMessage(|resp.value.finOpsPolicies|, "finops policy", "finops policies").value
  {
    match resp
    case TransportFailed(e) => Err("query failed when checking tag policies " + e)
    case NoResults => Ok(CheckOutcome(None, []))
    case GraphqlErrors(t) => Err("query failed when checking tag policies, received graphql error: " + t)
    case UnmarshalFailed(e) => Err("failed to unmarshal tag policies " + e)
    case Data(out) =>
      var tagMsg := CheckedMessage(|out.tagPolicies|, "tag policy", "tag policies");
      var finOpsMsg := CheckedMessage(|out.finOpsPolicies|, "finops policy", "finops policies");
      Ok(CheckOutcome(
        Some(out),
        (if tagMsg.Some? then [tagMsg.value] else []) + (if finOpsMsg.Some? then [finOpsMsg.value] else [])))
  }
}
