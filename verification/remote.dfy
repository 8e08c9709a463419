/** The cloud provider as the tool sees it: the records its reads return,
    the calls the tool issues, and the ownership tag convention. */
module Remote {
  import opened Seqs

  datatype Tag = Tag(key: string, value: string)

  /** One EC2 instance as `describe_instances` reports it. */
  datatype Instance = Instance(instanceId: string, tags: seq<Tag>, stateName: string)

  /** The instances launched together by one `run_instances` request. */
  type Reservation = seq<Instance>

  /** A `describe_instances` filter, `{'Name': ..., 'Values': [...]}`. */
  datatype Filter = Filter(name: string, values: seq<string>)

  /** The `TagSpecifications` entry of a `run_instances` request. */
  datatype TagSpecification = TagSpecification(resourceType: string, tags: seq<Tag>)

  /** Every SDK call the tool can issue, with the arguments it passes. */
  datatype ApiCall =
    | DescribeInstances(filters: seq<Filter>)
    | RunInstances(imageId: string, instanceType: string, minCount: int, maxCount: int,
                   tagSpecifications: seq<TagSpecification>)
    | StartInstances(instanceIds: seq<string>)
    | StopInstances(instanceIds: seq<string>)
    | CreateBucket(bucket: string, locationConstraint: string)
    | PutBucketAcl(bucket: string, acl: string)
    | ListBuckets
    | UploadFileobj(bucket: string, key: string)
    | CreateHostedZone(name: string, callerReference: string)

  /** Calls that change remote state; the two listings only read it. */
  predicate Mutating(c: ApiCall)
  {
    !(c.DescribeInstances? || c.ListBuckets?)
  }

  /** A snapshot of the provider: what its reads return at the moment the
      command runs, and the identifiers it would assign to new resources. */
  datatype Provider = Provider(
    reservations: seq<Reservation>,  // every reservation of the account, in listing order
    buckets: seq<string>,            // the names `list_buckets` returns, account-wide
    launchedId: string,              // the id `run_instances` assigns
    hostedZoneId: string)            // the id `create_hosted_zone` assigns

  /** The ownership tag every instance the tool launches carries. */
  const OwnershipKey: string := "CreatedByCLI"
  const OwnershipTag: Tag := Tag(OwnershipKey, "true")

  /** The filter that scopes instance listings to owned instances. */
  const OwnershipFilter: Filter := Filter("tag:" + OwnershipKey, ["true"])

  /** Whether an instance passes one filter. Only `tag:<key>` filters are
      modelled: the instance must carry a tag `<key>` with one of the values. */
  predicate Matches(i: Instance, f: Filter)
  {
    && |f.name| >= 4 && f.name[..4] == "tag:"
    && exists t :: t in i.tags && t.key == f.name[4..] && t.value in f.values
  }

  predicate MatchesAll(i: Instance, filters: seq<Filter>)
  {
    forall f :: f in filters ==> Matches(i, f)
  }

  function Keep(filters: seq<Filter>): Instance -> bool
  {
    i => MatchesAll(i, filters)
  }

  predicate Owned(i: Instance)
  {
    MatchesAll(i, [OwnershipFilter])
  }

  /** The `Reservations` of a filtered `describe_instances` response: each
      reservation keeps the instances that pass every filter, and a
      reservation left with none is not reported. */
  function Reservations(rs: seq<Reservation>, filters: seq<Filter>): (r: seq<Reservation>)
    ensures |r| <= |rs|
    ensures forall k :: 0 <= k < |r| ==> |r[k]| > 0
    ensures forall k, j :: 0 <= k < |r| && 0 <= j < |r[k]| ==> MatchesAll(r[k][j], filters)
  {
    if |rs| == 0 then []
    else
      var kept := Select(rs[0], Keep(filters));
      (if |kept| == 0 then [] else [kept]) + Reservations(rs[1..], filters)
  }

  /** Flattening a filtered response gives the filtered flattening of the
      account's instances: filtering loses no instance and changes no order. */
  lemma {:induction false} ReservationsFlatten(rs: seq<Reservation>, filters: seq<Filter>)
    ensures Flatten(Reservations(rs, filters)) == Select(Flatten(rs), Keep(filters))
  {
    if |rs| != 0 {
      var kept := Select(rs[0], Keep(filters));
      var rest := Reservations(rs[1..], filters);
      ReservationsFlatten(rs[1..], filters);
      SelectAppend(rs[0], Flatten(rs[1..]), Keep(filters));
      if |kept| == 0 {
        assert Reservations(rs, filters) == rest;
      } else {
        assert Reservations(rs, filters) == [kept] + rest;
        FlattenAppend([kept], rest);
        assert Flatten([kept]) == kept + Flatten([]);
      }
    }
  }

  /** An instance carrying the ownership tag is owned: the listing filter
      and the launch tag agree. */
  lemma OwnershipTagMatchesFilter(i: Instance)
    requires OwnershipTag in i.tags
    ensures Owned(i)
  {
    assert OwnershipFilter.name[..4] == "tag:";
    assert OwnershipFilter.name[4..] == OwnershipKey;
  }
}
