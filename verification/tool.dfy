/** The command dispatcher and its guardrails: each handler maps the parsed
    namespace and a snapshot of the provider to the calls it issues, in
    order, and the outcome it reports. */
module Tool {
  import opened Wrappers
  import opened Text
  import opened Seqs
  import opened Remote
  import opened Cli

  /** The line a command prints, as a tag. */
  datatype Report =
    | Help                                        // usage, no resource selected
    | Silent                                      // a branch that prints nothing
    | InstanceCapReached                          // the running-instance cap refused a launch
    | CreatedInstance(instanceId: string)
    | StartedInstance(instanceId: string)
    | StoppedInstance(instanceId: string)
    | ListedInstances(entries: seq<(string, string)>)  // (instance id, state name) per line
    | BucketCreationCancelled
    | CreatedBucket(bucket: string)
    | BucketNotFound(bucket: string)              // absent, or not created via this tool
    | Uploaded(file: string, bucket: string)
    | ListedBuckets(names: seq<string>)
    | CreatedZone(zoneName: string, hostedZoneId: string)

  /** One invocation: whether the confirmation prompt was shown, the calls
      issued in order, and the report. */
  datatype Run = Run(prompted: bool, calls: seq<ApiCall>, report: Report)

  /** At this many running owned instances a launch is refused. */
  const InstanceCap: nat := 2

  /** The fixed region every bucket is created in. */
  const BucketRegion: string := "us-west-2"

  /** The image id each AMI choice launches. */
  function AmiId(a: Ami): string
  {
    match a
    case Ubuntu => "ami-12345678"
    case AmazonLinux => "ami-87654321"
  }

  /** The tag specification attached to every launch. */
  const LaunchTags: seq<TagSpecification> := [TagSpecification("instance", [OwnershipTag])]

  predicate IsRunning(i: Instance)
  {
    i.stateName == "running"
  }

  /** The running instances of a response, across all its reservations. */
  function RunningInstances(response: seq<Reservation>): seq<Instance>
  {
    Select(Flatten(response), IsRunning)
  }

  /** One (id, state name) entry per instance of a response, in order. */
  function Listing(response: seq<Reservation>): seq<(string, string)>
  {
    var all := Flatten(response);
    seq(|all|, k requires 0 <= k < |all| => (all[k].instanceId, all[k].stateName))
  }

  /** The confirmation gate: the answer must lower-case to exactly `yes`. */
  predicate Confirms(answer: string)
  {
    Lower(answer) == "yes"
  }

  function HandleEc2(args: Namespace, p: Provider): Run
  {
    var describe := DescribeInstances([OwnershipFilter]);
    var response := Reservations(p.reservations, [OwnershipFilter]);
    if args.action == Some("create") then
      if |RunningInstances(response)| >= InstanceCap then
        Run(false, [describe], InstanceCapReached)
      else
        var launch := RunInstances(AmiId(args.ami), InstanceTypeName(args.instanceType), 1, 1, LaunchTags);
        Run(false, [describe, launch], CreatedInstance(p.launchedId))
    else if args.action == Some("manage") then
      // Within this branch `action` is `manage`, so neither test below holds.
      var id := args.instanceId;
      if args.action == Some("start") then
        Run(false, [StartInstances([id])], StartedInstance(id))
      else if args.action == Some("stop") then
        Run(false, [StopInstances([id])], StoppedInstance(id))
      else
        Run(false, [], Silent)
    else if args.action == Some("list") then
      Run(false, [describe], ListedInstances(Listing(response)))
    else
      Run(false, [], Silent)
  }

  /** `confirm` is what the prompt would read; it is consulted only when the
      prompt is shown. */
  function HandleS3(args: Namespace, p: Provider, confirm: string): Run
  {
    if args.action == Some("create") then
      if args.public && !Confirms(confirm) then
        Run(true, [], BucketCreationCancelled)
      else
        var create := CreateBucket(args.bucketName, BucketRegion);
        if args.public then
          Run(true, [create, PutBucketAcl(args.bucketName, "public-read")], CreatedBucket(args.bucketName))
        else
          Run(false, [create], CreatedBucket(args.bucketName))
    else if args.action == Some("upload") then
      if args.bucketName !in p.buckets then
        Run(false, [ListBuckets], BucketNotFound(args.bucketName))
      else
        Run(false, [ListBuckets, UploadFileobj(args.bucketName, args.file)], Uploaded(args.file, args.bucketName))
    else if args.action == Some("list") then
      Run(false, [ListBuckets], ListedBuckets(p.buckets))
    else
      Run(false, [], Silent)
  }

  /** `callerRef` stands for `str(hash(name))`, whose value the interpreter
      salts per process. */
  function HandleRoute53(args: Namespace, p: Provider, callerRef: string -> string): Run
  {
    if args.action == Some("create") then
      Run(false, [CreateHostedZone(args.zoneName, callerRef(args.zoneName))], CreatedZone(args.zoneName, p.hostedZoneId))
    else if args.action == Some("manage") then
      Run(false, [], Silent)
    else
      Run(false, [], Silent)
  }

  /** The dispatch of `main` on the resource selector. */
  function Main(args: Namespace, p: Provider, confirm: string, callerRef: string -> string): Run
  {
    if args.resourceType == Some("ec2") then HandleEc2(args, p)
    else if args.resourceType == Some("s3") then HandleS3(args, p, confirm)
    else if args.resourceType == Some("route53") then HandleRoute53(args, p, callerRef)
    else Run(false, [], Help)
  }

  /** A whole invocation, from the accepted command line. */
  function Invoke(c: Command, p: Provider, confirm: string, callerRef: string -> string): Run
  {
    Main(Parse(c), p, confirm, callerRef)
  }
}
