/** The privacy filter applied to a resource's raw values before upload:
    only the fields an allow-list names are kept, recursively. */
module ValueFilter {
  import opened Gjson

  /** An allow-list tree: field name to rule. A rule is `true` (copy the
      value verbatim), `false` (drop it), an object (recurse with it as the
      nested allow-list), or anything else (an unknown rule: drop it). */
  type AllowList = map<string, Json>

  /** The rules that keep their field. */
  predicate Keeps(rule: Json) {
    rule == Bool(true) || rule.Obj?
  }

  /** `filterValues`: the filtered copy of `v` under `allow`. A `true` rule
      copies the value; an object rule maps the nested filter over an array
      element-wise, in order, and otherwise filters the value itself (a
      scalar has no fields and gives an empty object). */
  function FilterValues(v: Json, allow: AllowList): (r: map<string, Json>)
    ensures forall k :: k in r <==> k in AsMap(v) && k in allow && Keeps(allow[k])
    ensures Permitted(Obj(r), allow)
    decreases v
  {
    var m := AsMap(v);
    map k | k in m && k in allow && Keeps(allow[k]) ::
      if allow[k].Bool? then m[k]
      else if m[k].Arr? then
        Arr(seq(|m[k].elems|, i requires 0 <= i < |m[k].elems| =>
          Obj(FilterValues(m[k].elems[i], allow[k].fields))))
      else Obj(FilterValues(m[k], allow[k].fields))
  }

  /** The privacy boundary at every depth: `x` is an object each of whose
      fields is named by `allow` with a `true` rule, or with an object rule
      under which the field's value is itself permitted. */
  ghost predicate Permitted(x: Json, allow: AllowList)
    decreases x, 0
  {
    x.Obj? &&
    forall k :: k in x.fields ==>
      k in allow &&
      (allow[k] == Bool(true) || (allow[k].Obj? && PermittedUnder(x.fields[k], allow[k].fields)))
  }

  /** What an object rule admits: an object permitted by the nested
      allow-list, or an array of such objects. */
  ghost predicate PermittedUnder(y: Json, nested: AllowList)
    decreases y, 1
  {
    match y
    case Arr(es) => forall i :: 0 <= i < |es| ==> Permitted(es[i], nested)
    case Obj(_) => Permitted(y, nested)
    case _ => false
  }

  /** A `true` rule copies the field's raw value unchanged. */
  lemma FilterTrueRuleCopies(v: Json, allow: AllowList, k: string)
    requires k in AsMap(v) && k in allow && allow[k] == Bool(true)
    ensures k in FilterValues(v, allow) && FilterValues(v, allow)[k] == AsMap(v)[k]
  {
  }

  /** A field the allow-list does not name, or names with `false` or with a
      rule that is neither boolean nor object, never survives. */
  lemma FilterDropsUnlisted(v: Json, allow: AllowList, k: string)
    requires k !in allow || !Keeps(allow[k])
    ensures k !in FilterValues(v, allow)
  {
  }

  /** An object rule over an array keeps its length and order: element i of
      the output is the nested filter applied to element i of the input. */
  lemma FilterArrayElementwise(v: Json, allow: AllowList, k: string)
    requires k in AsMap(v) && k in allow && allow[k].Obj? && AsMap(v)[k].Arr?
    ensures k in FilterValues(v, allow)
    ensures var out := FilterValues(v, allow)[k];
      var es := AsMap(v)[k].elems;
      out.Arr? && |out.elems| == |es| &&
      forall i :: 0 <= i < |es| ==> out.elems[i] == Obj(FilterValues(es[i], allow[k].fields))
  {
  }

  /** An object rule over a non-array value filters that value; a scalar
      becomes an empty object. */
  lemma FilterNestedObject(v: Json, allow: AllowList, k: string)
    requires k in AsMap(v) && k in allow && allow[k].Obj? && !AsMap(v)[k].Arr?
    ensures k in FilterValues(v, allow)
    ensures FilterValues(v, allow)[k] == Obj(FilterValues(AsMap(v)[k], allow[k].fields))
    ensures !AsMap(v)[k].Obj? ==> FilterValues(v, allow)[k] == Obj(map[])
  {
  }

  /** Filtering an already filtered value with the same allow-list changes
      nothing. */
  lemma {:induction false} FilterIdempotent(v: Json, allow: AllowList)
    ensures FilterValues(Obj(FilterValues(v, allow)), allow) == FilterValues(v, allow)
    decreases v
  {
    var r := FilterValues(v, allow);
    var r2 := FilterValues(Obj(r), allow);
    var m := AsMap(v);
    forall k | k in r
      ensures k in r2 && r2[k] == r[k]
    {
      var rule := allow[k];
      if rule.Obj? {
        if m[k].Arr? {
          var es := m[k].elems;
          forall i | 0 <= i < |es|
            ensures FilterValues(Obj(FilterValues(es[i], rule.fields)), rule.fields) == FilterValues(es[i], rule.fields)
          {
            FilterIdempotent(es[i], rule.fields);
          }
          assert r2[k].elems == r[k].elems;
        } else {
          FilterIdempotent(m[k], rule.fields);
        }
      }
    }
    assert r2.Keys == r.Keys;
  }

  /** The nested step of the worked example: of one block device only the
      volume size survives. */
  lemma FilterBlockDeviceExample()
    ensures FilterValues(Obj(map["volume_size" := Num("8"), "delete_on_termination" := Bool(true)]),
                         map["volume_size" := Bool(true)]) == map["volume_size" := Num("8")]
  {
    var nested := map["volume_size" := Bool(true)];
    var device := Obj(map["volume_size" := Num("8"), "delete_on_termination" := Bool(true)]);
    var inner := FilterValues(device, nested);
    FilterTrueRuleCopies(device, nested, "volume_size");
    assert inner.Keys == {"volume_size"};
  }

  /** The allow-list of the worked example. */
  function ExampleAllow(): AllowList {
    map["instance_type" := Bool(true), "ebs_block_device" := Obj(map["volume_size" := Bool(true)])]
  }

  /** The raw values of the worked example. */
  function ExampleRaw(): Json {
    Obj(map["instance_type" := Str("t3.micro"),
            "ebs_block_device" := Arr([Obj(map["volume_size" := Num("8"), "delete_on_termination" := Bool(true)])]),
            "secret" := Str("x")])
  }

  /** The worked example keeps exactly the two listed keys. */
  lemma FilterInstanceExampleKeys()
    ensures FilterValues(ExampleRaw(), ExampleAllow()).Keys == {"instance_type", "ebs_block_device"}
  {
    var r := FilterValues(ExampleRaw(), ExampleAllow());
    FilterTrueRuleCopies(ExampleRaw(), ExampleAllow(), "instance_type");
    FilterArrayElementwise(ExampleRaw(), ExampleAllow(), "ebs_block_device");
    FilterDropsUnlisted(ExampleRaw(), ExampleAllow(), "secret");
  }

  /** The block devices of the worked example keep only their volume size. */
  lemma FilterInstanceExampleDevices()
    ensures "ebs_block_device" in FilterValues(ExampleRaw(), ExampleAllow())
    ensures FilterValues(ExampleRaw(), ExampleAllow())["ebs_block_device"] == Arr([Obj(map["volume_size" := Num("8")])])
  {
    var r := FilterValues(ExampleRaw(), ExampleAllow());
    FilterBlockDeviceExample();
    FilterArrayElementwise(ExampleRaw(), ExampleAllow(), "ebs_block_device");
    assert r["ebs_block_device"].elems == [Obj(map["volume_size" := Num("8")])];
  }

  /** The worked example: an instance's type is kept, only the volume size of
      each block device survives, and an unlisted secret is dropped. */
  lemma FilterInstanceExample()
    ensures FilterValues(ExampleRaw(), ExampleAllow()) ==
      map["instance_type" := Str("t3.micro"), "ebs_block_device" := Arr([Obj(map["volume_size" := Num("8")])])]
  {
    FilterInstanceExampleKeys();
    FilterInstanceExampleDevices();
    FilterTrueRuleCopies(ExampleRaw(), ExampleAllow(), "instance_type");
  }
}
