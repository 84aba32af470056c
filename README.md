# Multi-region package publishing pipeline: topology model

A Dafny model of the part of the multi-region Python package publishing
pipeline that has behaviour of its own: the expansion of one primary region
and a list of replica regions into

- the list of CodeArtifact resource identifiers (ARNs) the publishing role may
  act on, built by `GenerateCodeArtifactArns` in `lib/helpers.ts`, four per
  region, with the replicas visited in input order and the primary last;
- the pipeline built by the `MultiRegionPackagePublishingPipelineStack`
  constructor in `lib/package_publishing_pipeline_stack.ts`. It has three
  stages: Source, BuildPackage and Publish. The Publish stage holds one
  `PublishToRegion-<region>` action per region, and all of them share run
  order 1 and the build output.
- the role's access policy: `codeartifact:*` on exactly the helper's list,
  and `sts:GetServiceBearerToken` on `*` only for the CodeArtifact service;
- the console URL output, built from the primary region.

Files:

- `strings.dfy` (module `Strings`): strings made of separator-joined fields.
  It has the functions that read a field back and the lemmas that reading
  undoes joining.
- `arn.dfy` (module `Arn`): the CDK `Arn.format` call. The model uses the
  library's default layout `arn:partition:service:region:account:resource/resourceName`.
  The stack's partition and account tokens are an input (`StackContext`).
  The module also has readers for each ARN field.
- `helpers.dfy` (module `Helpers`): the stack properties and the region order.
  `GenerateCodeArtifactArns` is a method whose loop appends four identifiers
  per region. It is proved equal to the specification function
  `CodeArtifactArns`, a fold over the regions. The lemmas give the layout of
  the result and what each entry reads back as.
- `pipeline_stack.dfy` (module `PackagePublishingPipelineStack`): actions,
  stages and policies as records. `PackagePipeline` is a class that collects
  stages through `AddStage`. `PublishActions` is the publish loop.
  `Synthesize` is the part of the constructor this model covers. The module
  also has the policy and URL functions and lemmas about them.

The model follows the code, which performs no validation:

- This repository's code performs no check on duplicate regions, a primary
  also listed as a replica, or empty names, and raises no error for them.
  CDK's own duplicate-action-name check is left out (see "## Left out").
  A primary region that is also
  listed as a replica is visited twice, and its identifier block appears
  twice (`Helpers.PrimaryListedAsReplicaRepeatsBlock`).
- Publish actions carry no flag marking the primary. The primary's action
  is simply the last one, and its variables equal the project's defaults.
  When the primary is not also listed as a replica, no other action runs in
  the primary region (`PackagePublishingPipelineStack.PublishActionTargets`).
- Nothing enforces a naming charset. Lemmas that read identifiers back
  assume colon-free names and say so in their `requires`.

The model takes one assumption about the CodePipeline engine: a CodeBuild
action's environment variables override those of its project
(`EffectiveVariables`).

## Model

| member | source | states |
|---|---|---|
| `Helpers.GenerateCodeArtifactArns` | lib/helpers.ts:10-61 | The loop's result equals the fold `CodeArtifactArns` over replicas-then-primary and has `4 * (|replicaRegions| + 1)` entries; hence equal inputs give equal lists. |
| `Helpers.ArnsForLength` | lib/helpers.ts:18-57 | Visiting `n` regions yields exactly `4 * n` identifiers. |
| `Helpers.ArnsForBlock` | lib/helpers.ts:18-57 | Entries `4i .. 4i+3` are exactly the four-identifier block of the `i`-th visited region. |
| `Helpers.CodeArtifactArnsLayout` | lib/helpers.ts:18-56 | The result has `4 * (|replicaRegions| + 1)` entries. Block `i` belongs to region `i` of replicas-then-primary and holds the repository, the repository with `/*` appended, the domain and the package identifier, in that order. |
| `Helpers.RepositoryArnReadBack` | lib/helpers.ts:20-28 | The repository identifier, with or without a suffix, has service `codeartifact`, the iteration's region, the stack's account and resource path `repository/<domain>/<repository>` followed by the suffix. |
| `Helpers.DomainArnReadBack` | lib/helpers.ts:31-39 | The domain identifier has service `codeartifact`, the iteration's region, the stack's account and resource path `domain/<domain>`. |
| `Helpers.PackageArnReadBack` | lib/helpers.ts:42-50 | The package identifier has service `codeartifact`, the iteration's region, the stack's account and resource path `package/<domain>/<repository>/*`. |
| `Helpers.BlockEntryReadBack` | lib/helpers.ts:53-56 | Each of the four entries a region pushes reads back as a `codeartifact` ARN of that region, with the resource path fixed by its slot. |
| `Helpers.CodeArtifactArnsReadBack` | lib/helpers.ts:15-60 | Entry `k` of the result reads back with service `codeartifact`, region `Regions[k / 4]`, the stack's account and the resource path of slot `k % 4`. |
| `Helpers.CodeArtifactArnsScope` | lib/helpers.ts:15-60 | Every identifier in the result is a `codeartifact` ARN of one of the configured regions, in the stack's account. |
| `Helpers.SlotPathsDistinct` | lib/helpers.ts:53-56 | The four identifiers a region pushes have pairwise different resource paths. |
| `Helpers.ArnsEqualExactlyWhenRegionAndSlotMatch` | lib/helpers.ts:15-60 | Two entries are equal exactly when their blocks' regions are equal and they sit in the same slot, so duplicates come only from a region listed twice. |
| `Helpers.PrimaryListedAsReplicaRepeatsBlock` | lib/helpers.ts:15-18 | There is no deduplication. When replica `j` equals the primary, block `j` and the last block are identical. |
| `Arn.FormatReadsBack` | lib/helpers.ts:20-28 | Each field of a formatted ARN reads back as the argument it came from. Text appended after it lands only in the resource path. |
| `Arn.FormatInjective` | lib/helpers.ts:20-50 | Two ARNs formatted from colon-free arguments in one stack are equal exactly when their service, region and resource path are. |
| `PackagePublishingPipelineStack.PackagePipeline.constructor` | lib/package_publishing_pipeline_stack.ts:50-53 | A new pipeline has the given name and no stages. |
| `PackagePublishingPipelineStack.PackagePipeline.AddStage` | lib/package_publishing_pipeline_stack.ts:85-88 | Adding a stage appends it after the existing stages and changes nothing else. |
| `PackagePublishingPipelineStack.PublishActions` | lib/package_publishing_pipeline_stack.ts:229-243 | Action `i` is `PublishToRegion-<region_i>` with region variable `region_i`, over replicas-then-primary. There are `|replicaRegions| + 1` actions, all with run order 1, the publish project, input `buildOutput` and no outputs. |
| `PackagePublishingPipelineStack.Synthesize` | lib/package_publishing_pipeline_stack.ts:50-291 | The stages are, in order, Source (the CodeCommit action on `main`), BuildPackage (one action from `sourceOutput` to `buildOutput`) and Publish (the publish expansion). Every input is produced by an earlier stage. The project defaults, the policy over the helper's list and the URL from the primary region are also fixed. |
| `PackagePublishingPipelineStack.FixedStagesFeedForward` | lib/package_publishing_pipeline_stack.ts:74-252 | In the Source, BuildPackage, Publish layout the build consumes the source output and every publish action consumes the build output, both produced earlier. |
| `PackagePublishingPipelineStack.PublishActionNamesMatchRegions` | lib/package_publishing_pipeline_stack.ts:230-232 | Two publish actions have the same name exactly when they target the same region. |
| `PackagePublishingPipelineStack.PublishActionTargets` | lib/package_publishing_pipeline_stack.ts:213-239 | Publish action `i` runs with the configured domain, repository and `domainOwner = account`, and with `region = region_i`. The last (primary) action's variables equal the project defaults; when the primary is not also a replica, every other action's region differs from the primary. |
| `PackagePublishingPipelineStack.AccessPolicyScope` | lib/package_publishing_pipeline_stack.ts:257-283 | The first statement allows `codeartifact:*` on `4 * (|replicaRegions| + 1)` resources, each a `codeartifact` ARN of a configured region in the stack's account. The second allows only `sts:GetServiceBearerToken` on `*`, under `sts:AWSServiceName == codeartifact.amazonaws.com`. The policy is attached to the publish project's role. |
| `PackagePublishingPipelineStack.PipelineUrlReadsBack` | lib/package_publishing_pipeline_stack.ts:290 | The URL's first host label is the primary region. Different (region, pipeline name) pairs give different URLs. |
| `PackagePublishingPipelineStack.ExampleDeployment` | bin/multiregion_package_publishing.ts:32-35 | For the configured regions (`us-west-2`, `us-east-2`, primary `us-east-1`), there are three publish actions named after those regions in that order, and the policy has twelve resources. |

## Left out

- The KMS key, the S3 artifact bucket, the CodeCommit repository and the two CodeBuild projects are not modelled as constructs. They are CDK library calls with no logic here. A project appears only as a name and as the publish project's default variables.
- The build and publish buildspecs are not modelled. Their shell commands run in external containers.
- `lib/nag_suppressions.ts`, `lib/code_artifact_stack.ts`, `lib/types.ts` and `lib/custom-package-source-code/setup.py` are not part of this model. The entry point `bin/multiregion_package_publishing.ts` is used only for its constants, in `ExampleDeployment`.
- The internals of CDK `Arn.format` and of the `Stack.of(this).account` and partition tokens are not modelled. The model takes the library's default ARN layout and treats the tokens as inputs.
- CDK's own checks at synthesis time are left out. CDK rejects two actions with the same name in one stage; that check is library code outside this repository. The model therefore keeps duplicate regions as duplicate actions.
- How the pipeline runs is left out: parallel execution of actions with the same run order, failure propagation and retries belong to the CodePipeline engine.
- `Helpers.CodeArtifactArnsReadBack`: proved only for colon-free domain names, repository names, regions, partition and account. The source imposes no such restriction, but a colon in any of them makes ARN fields ambiguous.
- `PackagePublishingPipelineStack.PipelineUrlReadsBack`: proved only for primary regions without a dot, which AWS region names never contain.
