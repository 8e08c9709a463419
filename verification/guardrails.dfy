/** The properties the dispatcher promises: the instance cap, the image
    mapping, the confirmation gate, the upload existence check, which
    commands only read, and the branches that issue nothing. */
module Guardrails {
  import opened Wrappers
  import opened Text
  import opened Seqs
  import opened Remote
  import opened Cli
  import opened Tool

  predicate OwnedAndRunning(i: Instance)
  {
    Owned(i) && IsRunning(i)
  }

  /** Reference count for the cap: owned, running instances over the whole
      account, independent of how the provider groups and filters them. */
  function OwnedRunningCount(rs: seq<Reservation>): nat
  {
    |Select(Flatten(rs), OwnedAndRunning)|
  }

  /** The owned instances of the account, in listing order. */
  function OwnedInstances(rs: seq<Reservation>): seq<Instance>
  {
    Select(Flatten(rs), Owned)
  }

  /** The number of mutating calls of a trace. */
  function Mutations(calls: seq<ApiCall>): nat
  {
    |Select(calls, Mutating)|
  }

  predicate IsCommand(args: Namespace, resource: string, action: string)
  {
    args.resourceType == Some(resource) && args.action == Some(action)
  }

  /** The tag-filtered response holds exactly the owned instances. */
  lemma OwnedResponse(rs: seq<Reservation>)
    ensures Flatten(Reservations(rs, [OwnershipFilter])) == OwnedInstances(rs)
  {
    ReservationsFlatten(rs, [OwnershipFilter]);
    SelectSamePredicate(Flatten(rs), Keep([OwnershipFilter]), Owned);
  }

  /** What the cap counts is the number of owned running instances. */
  lemma CapCountsOwnedRunning(rs: seq<Reservation>)
    ensures |RunningInstances(Reservations(rs, [OwnershipFilter]))| == OwnedRunningCount(rs)
  {
    OwnedResponse(rs);
    SelectSelect(Flatten(rs), Owned, IsRunning, OwnedAndRunning);
  }

  /** At two or more owned running instances, `ec2 create` only lists and
      reports the cap. */
  lemma Ec2CreateRefusedAtCap(args: Namespace, p: Provider, confirm: string, callerRef: string -> string)
    requires IsCommand(args, "ec2", "create")
    requires OwnedRunningCount(p.reservations) >= InstanceCap
    ensures Main(args, p, confirm, callerRef) == Run(false, [DescribeInstances([OwnershipFilter])], InstanceCapReached)
    ensures Mutations(Main(args, p, confirm, callerRef).calls) == 0
  {
    CapCountsOwnedRunning(p.reservations);
  }

  /** Below the cap, `ec2 create` lists, then launches exactly one instance
      of the chosen type and image, tagged as owned, and reports its id. */
  lemma Ec2CreateLaunchesBelowCap(args: Namespace, p: Provider, confirm: string, callerRef: string -> string)
    requires IsCommand(args, "ec2", "create")
    requires OwnedRunningCount(p.reservations) < InstanceCap
    ensures var run := Main(args, p, confirm, callerRef);
      && |run.calls| == 2
      && run.calls[0] == DescribeInstances([OwnershipFilter])
      && run.calls[1].RunInstances?
      && run.calls[1].instanceType == InstanceTypeName(args.instanceType)
      && run.calls[1].minCount == 1 && run.calls[1].maxCount == 1
      && run.calls[1].tagSpecifications == [TagSpecification("instance", [Tag("CreatedByCLI", "true")])]
      && (args.ami == Ubuntu ==> run.calls[1].imageId == "ami-12345678")
      && (args.ami == AmazonLinux ==> run.calls[1].imageId == "ami-87654321")
      && run.report == CreatedInstance(p.launchedId)
  {
    CapCountsOwnedRunning(p.reservations);
  }

  /** Distinct AMI choices launch distinct images. */
  lemma AmiIdsDistinct(a: Ami, b: Ami)
    ensures AmiId(a) == AmiId(b) <==> a == b
  {
  }

  /** Adding a reservation raises the count by its owned running instances. */
  lemma {:induction false} OwnedRunningCountAppend(rs: seq<Reservation>, r: Reservation)
    ensures OwnedRunningCount(rs + [r]) == OwnedRunningCount(rs) + |Select(r, OwnedAndRunning)|
  {
    FlattenAppend(rs, [r]);
    assert [r][1..] == [];
    assert Flatten([r]) == r;
    SelectAppend(Flatten(rs), r, OwnedAndRunning);
  }

  /** Inserting a reservation anywhere raises the count by its owned
      running instances. */
  lemma OwnedRunningCountInsert(rs: seq<Reservation>, i: nat, r: Reservation)
    requires i <= |rs|
    ensures OwnedRunningCount(rs[..i] + [r] + rs[i..]) == OwnedRunningCount(rs) + |Select(r, OwnedAndRunning)|
  {
    var front, back := rs[..i], rs[i..];
    assert rs == front + back;
    FlattenAppend(front + [r], back);
    FlattenAppend(front, [r]);
    FlattenAppend(front, back);
    assert [r][1..] == [];
    assert Flatten([r]) == r;
    SelectAppend(Flatten(front) + r, Flatten(back), OwnedAndRunning);
    SelectAppend(Flatten(front), r, OwnedAndRunning);
    SelectAppend(Flatten(front), Flatten(back), OwnedAndRunning);
  }

  /** Instances that are not running, or that lack the ownership tag, never
      change what `ec2 create` does, wherever their reservation is listed. */
  lemma CapIgnoresOtherInstances(args: Namespace, p: Provider, i: nat, r: Reservation,
                                 confirm: string, callerRef: string -> string)
    requires IsCommand(args, "ec2", "create")
    requires i <= |p.reservations|
    requires forall k :: 0 <= k < |r| ==> !OwnedAndRunning(r[k])
    ensures Main(args, p.(reservations := p.reservations[..i] + [r] + p.reservations[i..]), confirm, callerRef)
         == Main(args, p, confirm, callerRef)
  {
    var p' := p.(reservations := p.reservations[..i] + [r] + p.reservations[i..]);
    OwnedRunningCountInsert(p.reservations, i, r);
    SelectNone(r, OwnedAndRunning);
    CapCountsOwnedRunning(p.reservations);
    CapCountsOwnedRunning(p'.reservations);
  }

  /** Two launches with the tool's tags that reach `running` exhaust the
      cap: on any account, the third create only lists and reports the cap. */
  lemma ThirdCreateRefused(args: Namespace, p: Provider, first: Instance, second: Instance,
                           confirm: string, callerRef: string -> string)
    requires IsCommand(args, "ec2", "create")
    requires first.tags == LaunchTags[0].tags && IsRunning(first)
    requires second.tags == LaunchTags[0].tags && IsRunning(second)
    ensures var run := Main(args, p.(reservations := p.reservations + [[first]] + [[second]]), confirm, callerRef);
      && run.calls == [DescribeInstances([OwnershipFilter])]
      && run.report == InstanceCapReached
      && Mutations(run.calls) == 0
  {
    OwnershipTagMatchesFilter(first);
    OwnershipTagMatchesFilter(second);
    OwnedRunningCountAppend(p.reservations, [first]);
    OwnedRunningCountAppend(p.reservations + [[first]], [second]);
    assert Select([first], OwnedAndRunning) == [first];
    assert Select([second], OwnedAndRunning) == [second];
    Ec2CreateRefusedAtCap(args, p.(reservations := p.reservations + [[first]] + [[second]]), confirm, callerRef);
  }

  /** `ec2 manage` never starts or stops anything: whenever the handler sees
      `manage`, the nested `start`/`stop` tests are false. */
  lemma Ec2ManageIssuesNothing(args: Namespace, p: Provider, confirm: string, callerRef: string -> string)
    requires IsCommand(args, "ec2", "manage")
    ensures Main(args, p, confirm, callerRef) == Run(false, [], Silent)
  {
  }

  /** From the command line, `ec2 manage --action start|stop` leaves `start`
      or `stop` under `action`, which no branch of the handler tests for. */
  lemma Ec2ManageCommandIssuesNothing(id: string, power: Power, p: Provider, confirm: string, callerRef: string -> string)
    ensures Parse(Ec2Manage(id, power)).action == Some(PowerName(power))
    ensures Parse(Ec2Manage(id, power)).action != Some("manage")
    ensures Invoke(Ec2Manage(id, power), p, confirm, callerRef) == Run(false, [], Silent)
  {
  }

  /** No namespace at all makes the tool start or stop an instance. */
  lemma NoPowerCallIsReachable(args: Namespace, p: Provider, confirm: string, callerRef: string -> string)
    ensures forall c :: c in Main(args, p, confirm, callerRef).calls ==> !c.StartInstances? && !c.StopInstances?
  {
  }

  /** The gate accepts exactly the three-letter answers spelling `yes` in
      any mix of cases; there is no trimming. */
  lemma ConfirmsExactly(answer: string)
    ensures Confirms(answer) <==>
      && |answer| == 3
      && (answer[0] == 'y' || answer[0] == 'Y')
      && (answer[1] == 'e' || answer[1] == 'E')
      && (answer[2] == 's' || answer[2] == 'S')
  {
    if |answer| == 3 {
      LowerCharPreimage(answer[0], 'y');
      LowerCharPreimage(answer[1], 'e');
      LowerCharPreimage(answer[2], 's');
      assert Lower(answer) == [LowerChar(answer[0]), LowerChar(answer[1]), LowerChar(answer[2])];
    } else {
      assert |Lower(answer)| != |"yes"|;
    }
  }

  lemma ConfirmationExamples()
    ensures Confirms("yes") && Confirms("YES") && Confirms("Yes")
    ensures !Confirms("y") && !Confirms("") && !Confirms(" yes") && !Confirms("yes ") && !Confirms("no")
  {
    ConfirmsExactly("yes");
    ConfirmsExactly("YES");
    ConfirmsExactly("Yes");
    ConfirmsExactly("y");
    ConfirmsExactly("");
    ConfirmsExactly(" yes");
    ConfirmsExactly("yes ");
    ConfirmsExactly("no");
  }

  /** Declining the public-bucket prompt aborts the whole create: no call,
      not even a private bucket. */
  lemma DeclinedPublicCreateIssuesNothing(args: Namespace, p: Provider, confirm: string, callerRef: string -> string)
    requires IsCommand(args, "s3", "create") && args.public
    requires !Confirms(confirm)
    ensures Main(args, p, confirm, callerRef) == Run(true, [], BucketCreationCancelled)
  {
  }

  /** A confirmed public create makes the bucket in the fixed region, then
      grants public read, in that order. */
  lemma ConfirmedPublicCreate(args: Namespace, p: Provider, confirm: string, callerRef: string -> string)
    requires IsCommand(args, "s3", "create") && args.public
    requires Confirms(confirm)
    ensures Main(args, p, confirm, callerRef)
         == Run(true, [CreateBucket(args.bucketName, "us-west-2"), PutBucketAcl(args.bucketName, "public-read")],
                CreatedBucket(args.bucketName))
  {
  }

  /** A private create makes only the bucket, with no prompt and no ACL. */
  lemma PrivateCreate(args: Namespace, p: Provider, confirm: string, callerRef: string -> string)
    requires IsCommand(args, "s3", "create") && !args.public
    ensures Main(args, p, confirm, callerRef)
         == Run(false, [CreateBucket(args.bucketName, "us-west-2")], CreatedBucket(args.bucketName))
  {
  }

  /** The prompt is shown exactly for a public create, and the answer only
      matters when it is shown. */
  lemma PromptOnlyForPublicCreate(args: Namespace, p: Provider, confirm: string, other: string, callerRef: string -> string)
    ensures Main(args, p, confirm, callerRef).prompted <==> IsCommand(args, "s3", "create") && args.public
    ensures !Main(args, p, confirm, callerRef).prompted ==>
      Main(args, p, confirm, callerRef) == Main(args, p, other, callerRef)
  {
  }

  /** An upload happens exactly when the bucket name is in the account-wide
      list; the check is membership only. */
  lemma UploadRequiresListedBucket(args: Namespace, p: Provider, confirm: string, callerRef: string -> string)
    requires IsCommand(args, "s3", "upload")
    ensures args.bucketName !in p.buckets ==>
      Main(args, p, confirm, callerRef) == Run(false, [ListBuckets], BucketNotFound(args.bucketName))
    ensures args.bucketName in p.buckets ==>
      Main(args, p, confirm, callerRef)
        == Run(false, [ListBuckets, UploadFileobj(args.bucketName, args.file)], Uploaded(args.file, args.bucketName))
  {
  }

  /** `ec2 list`, `s3 list` and `route53 manage` change nothing remotely. */
  lemma ListingsAreReadOnly(args: Namespace, p: Provider, confirm: string, callerRef: string -> string)
    requires IsCommand(args, "ec2", "list") || IsCommand(args, "s3", "list") || IsCommand(args, "route53", "manage")
    ensures forall c :: c in Main(args, p, confirm, callerRef).calls ==> !Mutating(c)
    ensures Mutations(Main(args, p, confirm, callerRef).calls) == 0
  {
  }

  /** `ec2 list` reports one (id, state) entry per owned instance, in
      reservation order, and no other instance. */
  lemma Ec2ListReportsOwnedInstances(args: Namespace, p: Provider, confirm: string, callerRef: string -> string)
    requires IsCommand(args, "ec2", "list")
    ensures var run := Main(args, p, confirm, callerRef);
      var owned := OwnedInstances(p.reservations);
      && run.calls == [DescribeInstances([OwnershipFilter])]
      && run.report.ListedInstances?
      && |run.report.entries| == |owned|
      && forall k :: 0 <= k < |owned| ==>
           run.report.entries[k] == (owned[k].instanceId, owned[k].stateName)
  {
    OwnedResponse(p.reservations);
  }

  /** `s3 list` reports every bucket of the account, in listing order. */
  lemma S3ListReportsAllBuckets(args: Namespace, p: Provider, confirm: string, callerRef: string -> string)
    requires IsCommand(args, "s3", "list")
    ensures Main(args, p, confirm, callerRef) == Run(false, [ListBuckets], ListedBuckets(p.buckets))
  {
  }

  /** `route53 create` creates one zone named as given, with a caller
      reference computed from the name alone. */
  lemma Route53CreateIssuesOneZone(args: Namespace, p: Provider, confirm: string, callerRef: string -> string)
    requires IsCommand(args, "route53", "create")
    ensures Main(args, p, confirm, callerRef)
         == Run(false, [CreateHostedZone(args.zoneName, callerRef(args.zoneName))], CreatedZone(args.zoneName, p.hostedZoneId))
  {
  }

  /** Without a known resource selector the tool prints usage and calls
      nothing. */
  lemma UnknownResourceShowsHelp(args: Namespace, p: Provider, confirm: string, callerRef: string -> string)
    requires args.resourceType !in {Some("ec2"), Some("s3"), Some("route53")}
    ensures Main(args, p, confirm, callerRef) == Run(false, [], Help)
  {
  }

  /** A resource selector without a subcommand prints nothing and calls
      nothing. */
  lemma MissingActionIssuesNothing(args: Namespace, p: Provider, confirm: string, callerRef: string -> string)
    requires args.resourceType in {Some("ec2"), Some("s3"), Some("route53")}
    requires args.action == None
    ensures Main(args, p, confirm, callerRef) == Run(false, [], Silent)
  {
  }

  /** The mutation count of a trace of at most two calls, call by call. */
  lemma ShortTraceMutations(calls: seq<ApiCall>)
    requires |calls| <= 2
    ensures Mutations(calls)
         == (if |calls| > 0 && Mutating(calls[0]) then 1 else 0)
          + (if |calls| == 2 && Mutating(calls[1]) then 1 else 0)
  {
    if |calls| > 0 {
      assert Select(calls, Mutating)
          == (if Mutating(calls[0]) then [calls[0]] else []) + Select(calls[1..], Mutating);
      if |calls| == 2 {
        var rest := calls[1..];
        assert rest == [calls[1]];
        assert Select(rest, Mutating)
            == (if Mutating(calls[1]) then [calls[1]] else []) + Select(rest[1..], Mutating);
        assert rest[1..] == [];
      } else {
        assert calls[1..] == [];
      }
    }
  }

  /** Every invocation issues its reads before its writes and at most two
      writes; two only for a confirmed public bucket. */
  lemma ReadsThenAtMostTwoWrites(args: Namespace, p: Provider, confirm: string, callerRef: string -> string)
    ensures var calls := Main(args, p, confirm, callerRef).calls;
      && (forall j, k :: 0 <= j < k < |calls| && Mutating(calls[j]) ==> Mutating(calls[k]))
      && Mutations(calls) <= 2
      && (Mutations(calls) == 2 ==> IsCommand(args, "s3", "create") && args.public && Confirms(confirm))
  {
    var calls := Main(args, p, confirm, callerRef).calls;
    assert |calls| <= 2;
    ShortTraceMutations(calls);
  }
}
