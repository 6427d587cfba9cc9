# awsomeutils in Dafny

This is a Dafny model of the sequential logic in three awsomeutils helpers. The AWS calls they
wrap become plain inputs or an abstract state.

- **Security-group reconciliation** (`security_group.dfy`, module `SecurityGroup`).
  `update_security_group` reads the group's ingress rule for a (port, protocol) pair. It
  normalises the requested CIDRs, revokes `current - desired`, then authorizes
  `desired - current`, and returns both diffs.
  - The EC2 group is a `Group` object holding the permission list the service reports. It also
    keeps a ghost log of the `authorize_ingress` / `revoke_ingress` calls it received.
  - The rule of a pair is what `_get_rule` collects from that list (`RuleOf`).
  - The proofs show that the two diffs partition the symmetric difference and that the group
    converges on the desired sets. Reconciling a second time changes nothing, and other pairs'
    rules are untouched.
- **S3 key selection** (`s3.dfy`, module `S3`).
  - `list_files` is modelled over a bucket given as its sequence of keys. It validates the path
    against `PATH_REGEX`, filters the prefix listing by '/'-segment count and basename, sorts,
    and wraps each key in a record. It is proved to return exactly the immediate children of
    `path + '/'`, each as often as the bucket holds it, in ascending order.
  - `populate_template` is a function. It returns the substituted text, the chosen output key,
    or the input key when substitution changed nothing. It also returns the object it writes,
    if any.
- **Job-list bookkeeping** (`step_functions.dfy`, module `StepFunctions`). `mark_as_failed` and
  `mark_as_processed` pop the head of the caller's `jobs` list in place and append it to
  `failed_jobs` / `processed_jobs`. They create that list when the key is absent and return the
  keyword mapping.
  - The lists are `JobList` objects, because the caller sees their changes. The keyword mapping
    is a map value, because `**kwargs` is a fresh dictionary in every call.
  - The contracts cover the case where the target list is the `jobs` list itself.

`wrappers.dfy` holds `Option` and `Result`.

Two things the source gets from libraries are function parameters of the model:
- CIDR normalisation (`ipaddress.ip_network`) is `normalize: string -> Cidr`.
- Template substitution (`string.Template.safe_substitute`) is `substitute`.

Two boto3 services are plain inputs:
- For `populate_template`, the object store is a map from keys to bodies.
- For `list_files`, the bucket is the sequence of its keys, and `ListObjects` stands for the
  `list_objects_v2` call over it.

## Model

| member | source | states |
|---|---|---|
| SecurityGroup.DiffList | awsomeutils/security_group.py:85-86 | the result holds exactly the elements of `list1` that are not in `list2`, each once |
| SecurityGroup.DiffAddresses | awsomeutils/security_group.py:76-80 | each family is the set difference of the same family, never mixing IPv4 and IPv6; no duplicates |
| SecurityGroup.DiffSelf | awsomeutils/security_group.py:85-86 | diffing a list against itself yields the empty list |
| SecurityGroup.DiffsPartition | awsomeutils/security_group.py:55-59 | revoked and authorized sets are disjoint and their union is the symmetric difference of current and desired, per family |
| SecurityGroup.AddOneCidr | tests/test_security_group.py:63-73 | adding one new CIDR to the desired rule authorizes exactly `[cidr]` and revokes nothing |
| SecurityGroup.RemoveOneCidr | tests/test_security_group.py:75-86 | dropping one CIDR from the desired rule revokes exactly `[cidr]` and authorizes nothing |
| SecurityGroup.Matches | awsomeutils/security_group.py:96 | a permission belongs to the rule iff its FromPort is the port and its IpProtocol the protocol, absent keys matching nothing |
| SecurityGroup.RuleOf | awsomeutils/security_group.py:91-106 | the IPv4 and IPv6 CIDRs of every matching permission, concatenated in permission order, each family kept apart |
| SecurityGroup.RuleOfSnoc | awsomeutils/security_group.py:95-101 | one more permission adds its ranges to the rule when FromPort and IpProtocol match, and nothing otherwise |
| SecurityGroup.RuleOfCollects | awsomeutils/security_group.py:91-106 | a CIDR is collected iff some permission with matching FromPort and IpProtocol lists it in that family |
| SecurityGroup.RuleOfAppend | awsomeutils/security_group.py:95-101 | the rule of a concatenated permission list is the two rules concatenated: encounter order is kept |
| SecurityGroup.GetRule | awsomeutils/security_group.py:91-106 | the loop returns exactly the collected rule `RuleOf` of the group's permissions |
| SecurityGroup.Without | awsomeutils/security_group.py:128-129 | revoking strips exactly the listed CIDRs from a range list (service side of `revoke_ingress`) |
| SecurityGroup.RevokeOneRule | awsomeutils/security_group.py:128-129 | revoking a permission removes its CIDRs from the rule of its own pair and leaves every other pair's rule unchanged |
| SecurityGroup.Group.AuthorizeIngress | awsomeutils/security_group.py:126-127 | the sent permissions are appended to the group and the call is logged |
| SecurityGroup.Group.RevokeIngress | awsomeutils/security_group.py:128-129 | the sent CIDRs are revoked from the group and the call is logged |
| SecurityGroup.Payload | awsomeutils/security_group.py:113-124 | no permission is built iff both address lists are empty |
| SecurityGroup.PayloadReadsBack | awsomeutils/security_group.py:116-124 | the sent permission has FromPort = ToPort = port and no prefix lists or group pairs; read back it yields the sent lists for its own pair and nothing for any other |
| SecurityGroup.Applied | awsomeutils/security_group.py:111-129 | the group's permission list after `_set_rule`: unchanged for an empty diff, the payload appended on authorize, revoked from the list on revoke |
| SecurityGroup.CallsFor | awsomeutils/security_group.py:111-129 | the calls `_set_rule` makes: none for an empty diff, otherwise one authorize or revoke call with the single payload |
| SecurityGroup.SetRule | awsomeutils/security_group.py:111-129 | no call when the diff is empty; otherwise one authorize or revoke call with the single permission |
| SecurityGroup.AppliedRule | awsomeutils/security_group.py:111-129 | authorize adds the sent CIDRs to the pair's address sets, revoke removes them; other pairs' rules are unchanged |
| SecurityGroup.Normalized | awsomeutils/security_group.py:52-53 | each requested CIDR replaced by its normalised form, in request order |
| SecurityGroup.Reconciled | awsomeutils/security_group.py:55-59 | the permission list after revoking `current - desired` and then authorizing `desired - current` |
| SecurityGroup.RevokedSets | awsomeutils/security_group.py:128-129 | revoking removes the sent CIDRs from the pair's address sets, per family |
| SecurityGroup.AuthorizedSets | awsomeutils/security_group.py:126-127 | authorizing adds the sent CIDRs to the pair's address sets, per family |
| SecurityGroup.ReconcileConverges | awsomeutils/security_group.py:55-59 | after revoke then authorize, the pair's address sets equal the desired sets |
| SecurityGroup.ReconcileKeepsOtherRules | awsomeutils/security_group.py:55-59 | reconciling one (port, protocol) pair leaves every other pair's rule exactly as it was |
| SecurityGroup.ReconcileIdempotent | awsomeutils/security_group.py:55-59 | a second reconciliation towards the same desired rule revokes and authorizes nothing |
| SecurityGroup.UpdateSecurityGroup | awsomeutils/security_group.py:44-68 | returns the port, the protocol and the four diff lists; revokes before authorizing; leaves the group holding exactly the desired sets |
| SecurityGroup.AddStep | tests/test_security_group.py:63-73 | one update that adds a new CIDR reports only that CIDR as authorized and leaves the rule holding the requested set |
| SecurityGroup.RemoveStep | tests/test_security_group.py:75-86 | one update that drops a CIDR reports only that CIDR as revoked and leaves the rule holding the requested set |
| SecurityGroup.UpdateScenario | tests/test_security_group.py:59-86 | the six updates of the test report only the CIDR added or dropped at each step |
| S3.ValidPath | awsomeutils/s3.py:9 | PATH_REGEX: letters, digits, '_', '/' or '-', then one last character other than '/', optionally followed by a final newline that `$` admits |
| S3.ValidPathShape | awsomeutils/s3.py:9 | a path accepted by PATH_REGEX is non-empty, does not end in '/', and is made of path characters except for its last two |
| S3.Depth | awsomeutils/s3.py:28 | `len(s.split('/'))`: one more than the number of '/' in the key |
| S3.Basename | awsomeutils/s3.py:36 | `os.path.basename`: the characters after the last '/', empty when the key ends in '/' |
| S3.SlashCountAppend | awsomeutils/s3.py:28 | the '/' count (segment count minus one) of a concatenation is the sum of the counts |
| S3.SlashCountZero | awsomeutils/s3.py:33 | a key has one segment iff it contains no '/' |
| S3.BasenameAfterSlash | awsomeutils/s3.py:36 | the basename of `dir + name`, with `dir` ending in '/' and `name` free of '/', is `name` |
| S3.BasenameSlashFree | awsomeutils/s3.py:84 | a basename never contains '/' |
| S3.KeysWithPrefix | awsomeutils/s3.py:30 | the keys of the bucket that start with the prefix, in bucket order |
| S3.ListObjects | awsomeutils/s3.py:30-32 | the 'Contents' of `list_objects_v2`: absent when no key has the prefix, otherwise the prefixed keys |
| S3.Kept | awsomeutils/s3.py:33-37 | a key passes the loop iff its segment count does not exceed the prefix's and its basename is non-empty |
| S3.Filtered | awsomeutils/s3.py:32-39 | the keys of the listing that pass both filters, in listing order, as the loop appends them |
| S3.KeptIffChild | awsomeutils/s3.py:33-37 | for a key under `path + '/'`, the depth and basename filters pass iff the key is an immediate child |
| S3.NoContentsIff | awsomeutils/s3.py:30-32 | the listing has no 'Contents' iff no key starts with the prefix |
| S3.FilteredListing | awsomeutils/s3.py:32-39 | filtering the prefix listing keeps exactly the immediate children, in listing order |
| S3.ChildrenCount | awsomeutils/s3.py:32-39 | each immediate child occurs as often as in the bucket; no other key occurs |
| S3.KeyLe | awsomeutils/s3.py:41 | Python's `<=` on str: lexicographic order by code point, a proper prefix ordered first |
| S3.KeyLeTotal | awsomeutils/s3.py:41 | any two keys are comparable under str ordering |
| S3.KeyLeTrans | awsomeutils/s3.py:41 | str ordering is transitive |
| S3.KeyLeAntisymmetric | awsomeutils/s3.py:41 | keys ordered both ways are equal |
| S3.KeyLeCommonPrefix | awsomeutils/s3.py:41 | comparing keys with a common prefix compares what follows it |
| S3.Insert | awsomeutils/s3.py:41 | inserting into a sorted list gives a sorted list with one more occurrence of the key |
| S3.SortKeys | awsomeutils/s3.py:41 | `sort()` yields an ascending permutation of its input |
| S3.SortedUnique | awsomeutils/s3.py:41 | two ascending lists with the same keys and counts are equal, so the sorted output is determined |
| S3.ListFiles | awsomeutils/s3.py:21-43 | validation error iff PATH_REGEX rejects the path; no-contents error iff no key has the prefix; otherwise an ascending list naming each immediate child of `path + '/'` as often as the bucket holds it |
| S3.ChildIff | awsomeutils/s3.py:33-37 | for any `dir`, `dir + rest` is an immediate child of `dir` iff `rest` is a non-empty name without '/' (`KeptIffChild` ties children to the filters) |
| S3.NotUnder | awsomeutils/s3.py:30-37 | a key that differs from `dir` at a position inside `dir` neither starts with `dir` nor is an immediate child of it |
| S3.Deeper | awsomeutils/s3.py:33 | a key under `dir + sub`, with `sub` ending in '/', is not an immediate child of `dir` |
| S3.ChildrenOfPath | tests/test_s3.py:20-53 | of the test bucket, only 'path/file1' is an immediate child of 'path/' |
| S3.ChildrenOfPathTo | tests/test_s3.py:20-58 | of the test bucket, only 'path/to/file2.1' and 'path/to/file2.2' are immediate children of 'path/to/', in that order |
| S3.ChildrenOfPathToFiles | tests/test_s3.py:20-63 | of the test bucket, only the three 'file3.*' keys are immediate children of 'path/to/files/' |
| S3.ChildrenSnoc | awsomeutils/s3.py:32-39 | one more key adds itself to the children iff it is an immediate child |
| S3.ListPathScenario | tests/test_s3.py:50-52 | listing 'path' gives exactly ['path/file1'] |
| S3.ListPathToScenario | tests/test_s3.py:54-57 | listing 'path/to' gives 'path/to/file2.1' then 'path/to/file2.2' |
| S3.ListPathToFilesScenario | tests/test_s3.py:59-63 | listing 'path/to/files' gives the three 'file3.*' keys in order |
| S3.InputText | awsomeutils/s3.py:72-77 | the template text: the body of the object `input_file` when the input type is 'file', otherwise the `template` argument |
| S3.PopulateTemplate | awsomeutils/s3.py:63-91 | fails iff the input object is missing; writes iff the output type is 'file' and the text changed, and then writes the substituted text under the returned key |
| S3.PopulateTextOutput | awsomeutils/s3.py:90-91 | with an output type other than 'file', the substituted text is returned and nothing is written |
| S3.PopulateUnchanged | awsomeutils/s3.py:69-89 | file output with unchanged text returns `input_file` ('' when absent) and writes nothing |
| S3.PopulateToOutputFile | awsomeutils/s3.py:83-87 | changed text with `output_file` given is written to and returns `output_file` |
| S3.PopulateToOutputPath | awsomeutils/s3.py:83-87 | without `output_file`, the returned key is `output_path + '/'` followed by the input's basename, and its basename is the input's basename |
| S3.PopulateTextScenario | tests/test_s3.py:115-127 | reading `input.txt` with text output returns the substituted text and writes nothing |
| S3.PopulateOutputFileScenario | tests/test_s3.py:146-149 | with `output_file` 'output.txt', the substituted text is written to and returned as 'output.txt' |
| S3.TestOutputKey | awsomeutils/s3.py:84 | output path 'tmp' and input 'input.txt' give the key 'tmp/input.txt' |
| S3.PopulateOutputPathScenario | tests/test_s3.py:151-154 | with `output_path` 'tmp', the substituted text is written to and returned as 'tmp/input.txt' |
| StepFunctions.ValidArgs | awsomeutils/step_functions.py:8-12 | the argument schema: `jobs` present, a list, with at least one job; `failed_jobs` and `processed_jobs` lists when present; other keys allowed |
| StepFunctions.JobList.PopFront | awsomeutils/step_functions.py:18 | `pop(0)` returns the head and leaves the rest of the list |
| StepFunctions.JobList.Append | awsomeutils/step_functions.py:18 | `append` adds the job at the end |
| StepFunctions.Transfer | awsomeutils/step_functions.py:18 | the old jobs are the moved job followed by the new jobs; the target keeps its old jobs as a prefix and gains one |
| StepFunctions.Rotated | awsomeutils/step_functions.py:18 | when target and jobs are one list, the head moves to the end and the rest keeps its order |
| StepFunctions.TransferKeepsJobs | awsomeutils/step_functions.py:18 | jobs and target together hold the same jobs, as often, before and after |
| StepFunctions.RotatedKeepsJobs | awsomeutils/step_functions.py:18 | moving the head to the end of the same list keeps its jobs |
| StepFunctions.MoveHead | awsomeutils/step_functions.py:15-22 | invalid arguments are an error and change nothing; otherwise the head moves to the target list, created fresh when absent, and the mapping gains that key and is otherwise unchanged |
| StepFunctions.MarkAsFailed | awsomeutils/step_functions.py:8-22 | the head of `jobs` moves to `failed_jobs`; only the two lists can change; other keys keep their values; rejects a missing, non-list or empty `jobs` |
| StepFunctions.MarkAsProcessed | awsomeutils/step_functions.py:32-46 | the head of `jobs` moves to `processed_jobs`; only the two lists can change; other keys keep their values; rejects a missing, non-list or empty `jobs` |
| StepFunctions.MarkAsFailedScenario | tests/test_step_functions.py:16-38 | calls without `jobs`, with `jobs='foo'` or with empty `jobs` fail; on three jobs, `failed_jobs` is the first and two remain |
| StepFunctions.MarkAsProcessedScenario | tests/test_step_functions.py:46-68 | the same calls to `mark_as_processed` |

## Left out

- All boto3 calls are replaced by inputs and by the `Group` state. The model leaves out transport
  and service errors, which the source re-raises unchanged.
- The listing is not paginated: `list_objects_v2` returns at most 1000 keys per call and the
  source does not follow continuation tokens. The model lists every key under the prefix.
- S3's own listing order is not modelled, because the result is sorted afterwards. Python's
  `str` ordering is modelled as code-point order over `seq<char>`.
- `ipaddress.ip_network` is the parameter `normalize`. Its host-bit checks and its errors are
  not modelled.
- `string.Template.safe_substitute` is the parameter `substitute`. Only whether the text changed
  matters to the key choice.
- The cerberus argument schemas of `update_security_group` and `populate_template` are not
  evaluated. Typed parameters stand in for the first; `HasReadKeys` stands in for the second.
  The step-functions schema is small enough to model, and `ValidArgs` models it.
- S3.PopulateTemplate: requires only the keys the body reads. The schema's `oneof`,
  `dependencies`, `excludes` and FILE_KEY_REGEX checks, and the ValueError they raise, are not
  modelled.
- S3.ValidPathShape states two consequences of PATH_REGEX, and the listing's proofs do not use
  them: `path + '/'` ends in '/' for every path. The predicate `ValidPath` itself follows the regex, including Python's `$` matching before a
  final newline.
- The IPv4, IPv6 and FILE_KEY regexes are not part of this model. The schema validator enforces
  them.
- `read_json_file`, `awsomeutils/email.py` and the schema registry of
  `awsomeutils/safe_kwargs.py` are not part of this model. Decoding the object body as UTF-8 is
  also left out: bodies are strings.
- SecurityGroup.DiffList: Python's set gives no order. The model fixes first-occurrence order,
  but its contract promises only the elements and their distinctness.
- SecurityGroup.ReconcileConverges assumes the service stores each authorized permission as sent,
  with FromPort and IpProtocol echoed back (`Group.AuthorizeIngress` appends it unchanged). EC2
  reports an all-protocols rule (`-1`, allowed by the schema) without a FromPort, and it may
  normalise other protocols. `_get_rule` then never matches that rule, so the real program
  authorizes the same CIDRs again on every call and does not converge. The model does not capture
  this.
- SecurityGroup.ReconcileIdempotent rests on the same assumption: for `-1`, and for any protocol
  the service rewrites, a second call authorizes the same CIDRs again.
- SecurityGroup.Group.RevokeIngress models the service as matching on FromPort and IpProtocol
  only, ignoring ToPort. The service's rejection of duplicate or unknown permissions is not
  modelled.
- `_set_rule` with an action other than 'authorize' or 'revoke' issues no call. The source
  never passes one, so `Action` has only the two.
- The rewrite of `new_rule` at security_group.py:52-53 changes only the call's own copy of the
  keyword dictionary. It is modelled as the local `newRule`.
- StepFunctions.JobList.PopFront requires a non-empty list. Python raises IndexError instead,
  but the schema's `minlength: 1` excludes that case before the call.
- Jobs are opaque records (`map<string, int>`). A Python list may hold any value.
- The text-input tests at tests/test_s3.py:76-109 pass `input_text`, while the code reads
  `template`. The model follows the code.
