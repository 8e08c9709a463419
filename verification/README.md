# AWS resource provisioning CLI — dispatch and guardrails

A Dafny model of the decision logic of `aws_cli_tool.py`, a command-line tool
that creates and manages EC2 instances, S3 buckets and Route53 hosted zones.
The tool's only real logic is in `main` and the three handlers
`handle_ec2_commands`, `handle_s3_commands` and `handle_route53_commands`.
A parsed command and a snapshot of the account decide two things: which SDK
calls are issued, in which order, and which outcome line is printed. The
guardrails are:

- the **instance cap**: no launch while two or more instances tagged
  `CreatedByCLI=true` are `running`;
- the **AMI mapping**: `ubuntu` launches `ami-12345678` and `amazon-linux`
  launches `ami-87654321`;
- the **public-bucket gate**: a public create goes ahead only if the answer
  lower-cases to exactly `yes`, and any other answer aborts the whole create;
- the **upload existence check**: the bucket name must be in the account-wide
  bucket list.

Layout:

- `wrappers.dfy` (`Wrappers`): `Option`, for argparse attributes left as `None`.
- `text.dfy` (`Text`): `Lower`, the model of `str.lower`.
- `seqs.dfy` (`Seqs`): `Flatten` and `Select`, the list comprehensions of the
  handlers, with their append and composition lemmas.
- `remote.dfy` (`Remote`): instances, reservations, tags, filters, the
  provider snapshot (`Provider`), the calls the tool can issue (`ApiCall`),
  and the response of a filtered `describe_instances` (`Reservations`).
- `cli.dfy` (`Cli`): the closed choice sets, the accepted command lines
  (`Command`), the namespace (`Namespace`) and `Parse`.
- `tool.dfy` (`Tool`): `HandleEc2`, `HandleS3`, `HandleRoute53` and `Main`.
  Each is a pure function from the namespace, the provider snapshot, the text
  the prompt would read and the caller-reference function to a `Run`. A `Run`
  records whether the prompt was shown, the calls in order, and a `Report`
  tag for the printed line.
- `guardrails.dfy` (`Guardrails`): the properties.

The dispatch is on strings, as in the source, so the branches that fall
through stay visible. `ec2 manage` is modelled as the code behaves, not as
it was meant to behave. The `ec2` subparsers write their name to the dest
`action`, and the `manage` subparser also has an option `--action`
(aws_cli_tool.py:16, 24). argparse copies the subcommand's attributes onto
the namespace after it writes the subcommand name, so `start` or `stop`
replaces `manage`. The handler then matches none of its branches. Even a
namespace that does hold `manage` cannot reach the nested `start`/`stop`
tests (aws_cli_tool.py:92, 95). So no invocation ever issues
`start_instances` or `stop_instances` (`Guardrails.NoPowerCallIsReachable`).

Other behaviour of the program that the model keeps as written:

- Uploads check only that the bucket name is listed; no ownership tag is
  checked, although the message at aws_cli_tool.py:124 says the bucket "was
  not created via this CLI".
- The caller reference of a hosted zone is `str(hash(name))`. Python salts
  that hash per process, so it is stable within one run only. The model
  takes it as a function parameter, `callerRef`.
- `ec2 manage` is modelled as written.

## Model

| member | source | states |
|---|---|---|
| Cli.Parse | aws_cli_tool.py:12-53 | a namespace has no resource selector exactly for the bare command line and no action exactly when no subcommand is given; `manage` is left under `action` only by `route53 manage`, because the `--action` option of `ec2 manage` replaces it (see also `Guardrails.Ec2ManageCommandIssuesNothing`) |
| Tool.Invoke | aws_cli_tool.py:53-62 | no contract of its own: a parse followed by `main`; `Guardrails.Ec2ManageCommandIssuesNothing` states its run for `ec2 manage` |
| Tool.Main | aws_cli_tool.py:55-62 | no contract of its own: the dispatch on the resource selector; stated by `Guardrails.UnknownResourceShowsHelp`, `Guardrails.NoPowerCallIsReachable`, `Guardrails.PromptOnlyForPublicCreate` and `Guardrails.ReadsThenAtMostTwoWrites` |
| Tool.HandleEc2 | aws_cli_tool.py:64-103 | no contract of its own; stated by `Guardrails.Ec2CreateRefusedAtCap`, `Guardrails.Ec2CreateLaunchesBelowCap`, `Guardrails.Ec2ManageIssuesNothing` and `Guardrails.Ec2ListReportsOwnedInstances` |
| Tool.HandleS3 | aws_cli_tool.py:105-134 | no contract of its own; stated by `Guardrails.DeclinedPublicCreateIssuesNothing`, `Guardrails.ConfirmedPublicCreate`, `Guardrails.PrivateCreate`, `Guardrails.UploadRequiresListedBucket` and `Guardrails.S3ListReportsAllBuckets` |
| Tool.HandleRoute53 | aws_cli_tool.py:136-143 | no contract of its own; stated by `Guardrails.Route53CreateIssuesOneZone` and `Guardrails.ListingsAreReadOnly` |
| Tool.AmiId | aws_cli_tool.py:73-76 | no contract of its own; `Guardrails.AmiIdsDistinct` and `Guardrails.Ec2CreateLaunchesBelowCap` state the mapping |
| Tool.Confirms | aws_cli_tool.py:109 | no contract of its own; `Guardrails.ConfirmsExactly` characterises the accepted answers |
| Tool.RunningInstances | aws_cli_tool.py:67 | no contract of its own; `Guardrails.CapCountsOwnedRunning` states its length |
| Tool.Listing | aws_cli_tool.py:101-103 | no contract of its own; `Guardrails.Ec2ListReportsOwnedInstances` states its entries |
| Seqs.Flatten | aws_cli_tool.py:67 | no contract of its own; `Seqs.FlattenAppend` and `Remote.ReservationsFlatten` state how it combines with appending and filtering |
| Seqs.SelectOccurrences | aws_cli_tool.py:67 | the filtering comprehension keeps every passing occurrence: each passing value occurs as often as in the input and no failing value occurs, so its length counts occurrences |
| Text.Lower | aws_cli_tool.py:109 | the lower-cased answer has the same length as the answer and lower-cases each character in place |
| Text.LowerCharPreimage | aws_cli_tool.py:109 | under the ASCII-only `LowerChar`, the only characters that lower-case to a given small letter are that letter and its capital |
| Seqs.Select | aws_cli_tool.py:67 | a filtering comprehension keeps only elements that pass the test, every passing value of the input appears in it, and it is no longer than its input (multiplicity: `Seqs.SelectOccurrences`; order: `Seqs.SelectAppend`) |
| Remote.Reservations | aws_cli_tool.py:66 | a tag-filtered listing reports only instances that pass every filter, reports no empty reservation, and has no more reservations than the account |
| Remote.ReservationsFlatten | aws_cli_tool.py:66-67 | flattening the filtered reservations gives the account's instances that pass the filters, in order: nothing owned is lost or reordered |
| Remote.OwnershipTagMatchesFilter | aws_cli_tool.py:83-86 | an instance carrying the launch tag `CreatedByCLI=true` passes the listing filter `tag:CreatedByCLI` in `["true"]` |
| Guardrails.OwnedResponse | aws_cli_tool.py:100 | the flattened tag-filtered response is exactly the account's owned instances, in order |
| Guardrails.CapCountsOwnedRunning | aws_cli_tool.py:66-69 | the number the cap compares is the count of owned instances whose state is `running` |
| Guardrails.Ec2CreateRefusedAtCap | aws_cli_tool.py:64-71 | with two or more owned running instances, `ec2 create` only lists, launches nothing and reports the cap |
| Guardrails.Ec2CreateLaunchesBelowCap | aws_cli_tool.py:73-88 | below the cap, `ec2 create` lists and then issues exactly one launch with the given type, MinCount = MaxCount = 1, the `CreatedByCLI=true` tag, `ami-12345678` for ubuntu and `ami-87654321` for amazon-linux, and reports the assigned id |
| Guardrails.AmiIdsDistinct | aws_cli_tool.py:73-76 | the two AMI choices map to different image ids |
| Guardrails.OwnedRunningCountAppend | aws_cli_tool.py:67-69 | adding a reservation raises the cap count by exactly its owned running instances |
| Guardrails.OwnedRunningCountInsert | aws_cli_tool.py:67-69 | inserting a reservation at any position raises the cap count by exactly its owned running instances |
| Guardrails.CapIgnoresOtherInstances | aws_cli_tool.py:66-71 | inserting, at any position, a reservation whose instances are not running or not tagged never changes what `ec2 create` does |
| Guardrails.ThirdCreateRefused | aws_cli_tool.py:66-87 | on any account, after two launches with the tool's tags reach `running`, a third create only lists, launches nothing and reports the cap |
| Guardrails.Ec2ManageIssuesNothing | aws_cli_tool.py:90-97 | when the handler sees `manage`, it issues no call and prints nothing |
| Guardrails.Ec2ManageCommandIssuesNothing | aws_cli_tool.py:16-24 | `ec2 manage --action start` or `stop` leaves `start`/`stop` under `action`, not `manage`, and the invocation issues no call |
| Guardrails.NoPowerCallIsReachable | aws_cli_tool.py:90-97 | no namespace makes the tool issue `start_instances` or `stop_instances` |
| Guardrails.ConfirmsExactly | aws_cli_tool.py:108-111 | the gate accepts an answer if and only if it has three characters spelling `yes` in any mix of ASCII cases |
| Guardrails.ConfirmationExamples | aws_cli_tool.py:109-111 | `yes`, `YES` and `Yes` are accepted; `y`, the empty answer, ` yes`, `yes ` and `no` are declined |
| Guardrails.DeclinedPublicCreateIssuesNothing | aws_cli_tool.py:106-111 | a declined public create shows the prompt, issues no call at all and reports cancellation |
| Guardrails.ConfirmedPublicCreate | aws_cli_tool.py:113-119 | a confirmed public create issues `create_bucket` in `us-west-2` and then `put_bucket_acl` `public-read`, nothing else |
| Guardrails.PrivateCreate | aws_cli_tool.py:106-119 | a private create shows no prompt and issues only `create_bucket` in `us-west-2` |
| Guardrails.PromptOnlyForPublicCreate | aws_cli_tool.py:107-108 | the prompt is shown exactly for a public `s3 create`, and the answer changes nothing when it is not shown |
| Guardrails.UploadRequiresListedBucket | aws_cli_tool.py:121-129 | an unlisted bucket gets a list call only and a not-found report; a listed one gets the list call and exactly one upload whose key is the file path |
| Guardrails.ListingsAreReadOnly | aws_cli_tool.py:99-143 | `ec2 list`, `s3 list` and `route53 manage` issue no mutating call |
| Guardrails.Ec2ListReportsOwnedInstances | aws_cli_tool.py:99-103 | `ec2 list` issues one filtered listing and reports one (id, state) entry per owned instance, in reservation order |
| Guardrails.S3ListReportsAllBuckets | aws_cli_tool.py:131-134 | `s3 list` issues one listing and reports every bucket name of the account, not only owned ones |
| Guardrails.Route53CreateIssuesOneZone | aws_cli_tool.py:136-139 | `route53 create` issues exactly one `create_hosted_zone` with the given name and a caller reference computed from the name alone |
| Guardrails.UnknownResourceShowsHelp | aws_cli_tool.py:55-62 | a missing or unknown resource selector prints usage and issues no call |
| Guardrails.MissingActionIssuesNothing | aws_cli_tool.py:64-143 | a resource selector without a subcommand issues no call and prints nothing |
| Guardrails.ReadsThenAtMostTwoWrites | aws_cli_tool.py:55-143 | every invocation issues its reads before its writes and at most two writes; two only for a confirmed public bucket |

## Left out

- Argument parsing (aws_cli_tool.py:11-53) is reduced to `Cli.Parse` from the closed set of accepted command lines. Usage errors, `--help` and the choice checks of argparse are not modelled; the choice sets are enums.
- Namespace attributes that the chosen subcommand does not define hold placeholder values (`Cli.Unset`). In Python, reading one would raise `AttributeError`, but no branch reachable from a parsed command reads one. The handler lemmas quantify over all namespaces.
- boto3 client construction and transport (aws_cli_tool.py:6-8): the SDK appears only as the `ApiCall` trace and the `Provider` snapshot that the reads return.
- The effect of a call on the account is not modelled. The identifiers the provider assigns (`launchedId`, `hostedZoneId`) are fields of the snapshot.
- `describe_instances` filters: only `tag:<key>` filters are modelled, because that is the only kind the tool uses.
- File I/O (aws_cli_tool.py:127-128): the upload is the call `UploadFileobj(bucket, key)`. Opening a missing file raises an error that the model does not include.
- `str(hash(name))` (aws_cli_tool.py:138) is the function parameter `callerRef`, because Python salts string hashes per process.
- Printed text and `print_help` output are `Report` tags.
- Exceptions the SDK raises are propagated by the source, not handled, so they are not modelled.
- The race between the cap check and the launch involves other actors running at the same time, so it is not modelled.
- Tool.HandleS3: `input()` at aws_cli_tool.py:108 raises `EOFError` when standard input is at end of file. The source then stops with a traceback; the model always has an answer and reports `BucketCreationCancelled` for it. The calls issued are the same (none), but the report differs.
- Text.LowerCharPreimage: is a fact about the ASCII-only `LowerChar`, not about Python's `str.lower`, which also lower-cases some other characters to ASCII letters (U+212A KELVIN SIGN becomes `k`). None of them lower-cases to `y`, `e` or `s`.
- Text.Lower: lower-cases ASCII letters only, not the full Unicode mapping of `str.lower`. No non-ASCII character lower-cases to `y`, `e` or `s`, so `Guardrails.ConfirmsExactly` describes exactly the answers the source accepts.
