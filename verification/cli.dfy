/** The command line, reduced to what the handlers read: the closed choice
    sets, the commands the parser accepts, and the namespace it builds. */
module Cli {
  import opened Wrappers

  /** `--instance-type` choices. */
  datatype InstanceType = T3Nano | T4gNano

  /** `--ami` choices. */
  datatype Ami = Ubuntu | AmazonLinux

  /** `ec2 manage --action` choices. */
  datatype Power = Start | Stop

  function InstanceTypeName(t: InstanceType): string
  {
    match t
    case T3Nano => "t3.nano"
    case T4gNano => "t4g.nano"
  }

  function AmiName(a: Ami): string
  {
    match a
    case Ubuntu => "ubuntu"
    case AmazonLinux => "amazon-linux"
  }

  function PowerName(p: Power): string
  {
    match p
    case Start => "start"
    case Stop => "stop"
  }

  /** A command line the parser accepts: a resource selector (or none), a
      subcommand (or none), and that subcommand's arguments. */
  datatype Command =
    | NoResource
    | Ec2NoAction
    | Ec2Create(instanceType: InstanceType, ami: Ami)
    | Ec2Manage(instanceId: string, power: Power)
    | Ec2List
    | S3NoAction
    | S3Create(bucketName: string, public: bool)
    | S3Upload(bucketName: string, file: string)
    | S3List
    | Route53NoAction
    | Route53Create(zoneName: string)
    | Route53Manage(zoneId: string, record: string)

  /** The parsed-arguments namespace. Attributes a subcommand does not define
      hold the placeholder values of `Unset`. */
  datatype Namespace = Namespace(
    resourceType: Option<string>,
    action: Option<string>,
    instanceType: InstanceType,
    ami: Ami,
    instanceId: string,
    bucketName: string,
    public: bool,
    file: string,
    zoneName: string,
    zoneId: string,
    record: string)

  const Unset: Namespace :=
    Namespace(None, None, T3Nano, Ubuntu, "", "", false, "", "", "", "")

  /** The namespace the parser builds. Each resource parser writes its
      subcommand name to the dest `action`; the `ec2 manage` parser also has
      an option `--action`, and since the subcommand's own attributes are
      copied onto the namespace after its name is written, the option's
      value replaces `manage`. */
  function Parse(c: Command): (ns: Namespace)
    ensures ns.resourceType == None <==> c == NoResource
    ensures ns.action == None <==> c.NoResource? || c.Ec2NoAction? || c.S3NoAction? || c.Route53NoAction?
    ensures ns.action == Some("manage") <==> c.Route53Manage?
  {
    var ec2 := Unset.(resourceType := Some("ec2"));
    var s3 := Unset.(resourceType := Some("s3"));
    var route53 := Unset.(resourceType := Some("route53"));
    match c
    case NoResource => Unset
    case Ec2NoAction => ec2
    case Ec2Create(t, a) => ec2.(action := Some("create"), instanceType := t, ami := a)
    case Ec2Manage(id, p) => ec2.(action := Some(PowerName(p)), instanceId := id)
    case Ec2List => ec2.(action := Some("list"))
    case S3NoAction => s3
    case S3Create(b, pub) => s3.(action := Some("create"), bucketName := b, public := pub)
    case S3Upload(b, f) => s3.(action := Some("upload"), bucketName := b, file := f)
    case S3List => s3.(action := Some("list"))
    case Route53NoAction => route53
    case Route53Create(z) => route53.(action := Some("create"), zoneName := z)
    case Route53Manage(z, rec) => route53.(action := Some("manage"), zoneId := z, record := rec)
  }
}
