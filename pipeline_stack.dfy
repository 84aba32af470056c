/** The topology-relevant part of the `MultiRegionPackagePublishingPipelineStack`
    constructor (lib/package_publishing_pipeline_stack.ts): the three pipeline
    stages, the per-region publish actions, the access policy of the publishing
    role and the console URL output. CDK constructs are plain records here. */
module PackagePublishingPipelineStack {
  import Arn
  import Helpers
  import Strings

  datatype Option<T> = None | Some(value: T)

  /** The two artifacts passed between stages. */
  datatype Artifact = SourceOutput | BuildOutput

  /** The two CodeBuild projects the actions run. */
  datatype Project = PackageBuildProject | PublishPackageProject

  /** A pipeline action descriptor; `runOrder` is `None` where the source
      leaves it unset. */
  datatype Action =
    | CodeCommitSourceAction(actionName: string, repositoryName: string, branch: string, output: Artifact)
    | CodeBuildAction(
        actionName: string,
        project: Project,
        input: Artifact,
        outputs: seq<Artifact>,
        environmentVariables: map<string, string>,
        runOrder: Option<int>)

  datatype Stage = Stage(stageName: string, actions: seq<Action>)

  datatype Effect = Allow

  /** A `StringEquals` condition on one key. */
  datatype Condition = StringEquals(key: string, value: string)

  datatype PolicyStatement = PolicyStatement(
    effect: Effect,
    actions: seq<string>,
    resources: seq<string>,
    conditions: seq<Condition>)

  /** An IAM policy; `roles` names the projects whose service roles it is attached to. */
  datatype Policy = Policy(policyName: string, statements: seq<PolicyStatement>, roles: seq<Project>)

  /** What the constructor leaves behind that this model follows. */
  datatype StackOutputs = StackOutputs(
    stages: seq<Stage>,
    publishProjectVariables: map<string, string>,
    policy: Policy,
    codePipelineUrl: string)

  /** The pipeline construct: stages are appended one `addStage` at a time. */
  class PackagePipeline {
    const pipelineName: string
    var stages: seq<Stage>

    constructor (pipelineName: string)
      ensures this.pipelineName == pipelineName && stages == []
    {
      this.pipelineName := pipelineName;
      stages := [];
    }

    method AddStage(stage: Stage)
      modifies this
      ensures stages == old(stages) + [stage]
    {
      stages := stages + [stage];
    }
  }

  const PipelineName := "packagePipeline"

  function SourceAction(): Action
  {
    CodeCommitSourceAction("CodeCommit", "PackageSourceCode", "main", SourceOutput)
  }

  function BuildAction(): Action
  {
    CodeBuildAction("BuildPackage", PackageBuildProject, SourceOutput, [BuildOutput], map[], None)
  }

  /** The default environment of the publish project: it targets the primary region. */
  function PublishProjectVariables(props: Helpers.PublishPipelineStackProps, ctx: Arn.StackContext): map<string, string>
  {
    map["domainName" := props.domainName, "repositoryName" := props.repositoryName,
        "domainOwner" := ctx.account, "region" := props.primaryRegion]
  }

  /** The publish action one iteration of the publish loop creates. */
  function PublishToRegionAction(region: string): Action
  {
    CodeBuildAction("PublishToRegion-" + region, PublishPackageProject, BuildOutput, [],
                    map["region" := region], Some(1))
  }

  /** `actions` holds one publish action per region of replicas-then-primary, in that order. */
  predicate IsPublishExpansion(props: Helpers.PublishPipelineStackProps, actions: seq<Action>)
  {
    |actions| == |Helpers.Regions(props)| &&
    forall i :: 0 <= i < |actions| ==> actions[i] == PublishToRegionAction(Helpers.Regions(props)[i])
  }

  /** The publish loop: one action per region, all in one concurrency group
      (run order 1) running the publish project on the build output. */
  method PublishActions(props: Helpers.PublishPipelineStackProps) returns (publishActions: seq<Action>)
    ensures IsPublishExpansion(props, publishActions)
    ensures |publishActions| == |props.replicaRegions| + 1
    ensures forall a :: a in publishActions ==>
      a.CodeBuildAction? && a.runOrder == Some(1) && a.project == PublishPackageProject &&
      a.input == BuildOutput && a.outputs == []
  {
    publishActions := [];
    var regions := props.replicaRegions + [props.primaryRegion];
    var i := 0;
    while i < |regions|
      invariant 0 <= i <= |regions|
      invariant |publishActions| == i
      invariant forall k :: 0 <= k < i ==> publishActions[k] == PublishToRegionAction(regions[k])
    {
      var region := regions[i];
      var publishToRegionAction := CodeBuildAction(
        "PublishToRegion-" + region, PublishPackageProject, BuildOutput, [],
        map["region" := region], Some(1));
      publishActions := publishActions + [publishToRegionAction];
      i := i + 1;
    }
  }

  /** The access policy of the publishing role: every CodeArtifact action on
      the given identifiers, and the bearer-token action on any resource but
      only on behalf of CodeArtifact. */
  function CodeArtifactAccessPolicy(codeArtifactArns: seq<string>): Policy
  {
    Policy(
      "CodeArtifactAccessPolicy",
      [PolicyStatement(Allow, ["codeartifact:*"], codeArtifactArns, []),
       PolicyStatement(Allow, ["sts:GetServiceBearerToken"], ["*"],
                       [StringEquals("sts:AWSServiceName", "codeartifact.amazonaws.com")])],
      [PublishPackageProject])
  }

  /** The console host and path that follow the region label in the URL. */
  const ConsolePipelinesPath := "console.aws.amazon.com/codesuite/codepipeline/pipelines/"

  /** The `CodePipelineURL` output. */
  function PipelineUrl(primaryRegion: string, pipelineName: string): string
  {
    "https://" + primaryRegion + "." + ConsolePipelinesPath + pipelineName + "/view"
  }

  /** The artifacts the actions of `actions` output. */
  function StageOutputs(actions: seq<Action>): set<Artifact>
    decreases |actions|
  {
    if |actions| == 0 then {}
    else
      var a := actions[0];
      (match a
       case CodeCommitSourceAction(_, _, _, output) => {output}
       case CodeBuildAction(_, _, _, outputs, _, _) => set x | x in outputs)
      + StageOutputs(actions[1..])
  }

  /** The artifacts produced by the stages before stage `s`. */
  function ProducedBefore(stages: seq<Stage>, s: nat): set<Artifact>
    requires s <= |stages|
    decreases s
  {
    if s == 0 then {} else ProducedBefore(stages, s - 1) + StageOutputs(stages[s - 1].actions)
  }

  /** Every action consumes only artifacts that an earlier stage produces. */
  predicate InputsProducedEarlier(stages: seq<Stage>)
  {
    forall s :: 0 <= s < |stages| ==>
      forall a :: a in stages[s].actions && a.CodeBuildAction? ==> a.input in ProducedBefore(stages, s)
  }

  /** The constructor, reduced to the parts above: stages added in the order
      Source, BuildPackage, Publish; the policy built from the helper's
      identifier list; the URL built from the primary region. */
  method Synthesize(props: Helpers.PublishPipelineStackProps, ctx: Arn.StackContext) returns (out: StackOutputs)
    ensures |out.stages| == 3
    ensures out.stages[0] == Stage("Source", [SourceAction()])
    ensures out.stages[1] == Stage("BuildPackage", [BuildAction()])
    ensures out.stages[2].stageName == "Publish" && IsPublishExpansion(props, out.stages[2].actions)
    ensures InputsProducedEarlier(out.stages)
    ensures out.publishProjectVariables == PublishProjectVariables(props, ctx)
    ensures out.policy == CodeArtifactAccessPolicy(Helpers.CodeArtifactArns(props, ctx))
    ensures out.codePipelineUrl == PipelineUrl(props.primaryRegion, PipelineName)
  {
    var packagePipeline := new PackagePipeline(PipelineName);
    packagePipeline.AddStage(Stage("Source", [SourceAction()]));
    packagePipeline.AddStage(Stage("BuildPackage", [BuildAction()]));
    var publishProjectVariables := PublishProjectVariables(props, ctx);
    var publishActions := PublishActions(props);
    packagePipeline.AddStage(Stage("Publish", publishActions));
    var codeArtifactArns := Helpers.GenerateCodeArtifactArns(props, ctx);
    var policy := CodeArtifactAccessPolicy(codeArtifactArns);
    var url := PipelineUrl(props.primaryRegion, packagePipeline.pipelineName);
    out := StackOutputs(packagePipeline.stages, publishProjectVariables, policy, url);
    FixedStagesFeedForward(out.stages);
  }

  /** In the Source, BuildPackage, Publish layout every input is available:
      the build consumes the source output, every publish action the build output. */
  lemma FixedStagesFeedForward(stages: seq<Stage>)
    requires |stages| == 3
    requires stages[0] == Stage("Source", [SourceAction()])
    requires stages[1] == Stage("BuildPackage", [BuildAction()])
    requires forall a :: a in stages[2].actions ==> a.CodeBuildAction? && a.input == BuildOutput
    ensures InputsProducedEarlier(stages)
  {
    assert StageOutputs(stages[0].actions) == {SourceOutput};
    assert StageOutputs(stages[1].actions) == {BuildOutput} by {
      assert stages[1].actions[1..] == [];
    }
    assert ProducedBefore(stages, 1) == {SourceOutput};
    assert ProducedBefore(stages, 2) == {SourceOutput, BuildOutput};
  }

  /** Two publish actions have the same name exactly when they target the
      same region; distinct regions give distinct action names. */
  lemma PublishActionNamesMatchRegions(props: Helpers.PublishPipelineStackProps, actions: seq<Action>)
    requires IsPublishExpansion(props, actions)
    ensures forall i, j :: 0 <= i < |actions| && 0 <= j < |actions| ==>
      (actions[i].actionName == actions[j].actionName <==> Helpers.Regions(props)[i] == Helpers.Regions(props)[j])
  {
    forall i, j | 0 <= i < |actions| && 0 <= j < |actions| && actions[i].actionName == actions[j].actionName
      ensures Helpers.Regions(props)[i] == Helpers.Regions(props)[j]
    {
      Strings.CancelPrefix("PublishToRegion-", Helpers.Regions(props)[i], Helpers.Regions(props)[j]);
    }
  }

  /** The variables a publish action runs with: the project's defaults,
      overridden by the action's own. */
  function EffectiveVariables(projectVariables: map<string, string>, action: Action): map<string, string>
  {
    match action
    case CodeCommitSourceAction(_, _, _, _) => projectVariables
    case CodeBuildAction(_, _, _, _, vars, _) => projectVariables + vars
  }

  /** Publish action `i` runs with the shared domain, repository and owner
      and with the region of its own iteration. The last action's variables
      (the primary's) equal the project's defaults; when the primary is not
      also listed as a replica, no other action runs in the primary region. */
  lemma PublishActionTargets(props: Helpers.PublishPipelineStackProps, ctx: Arn.StackContext, actions: seq<Action>)
    requires IsPublishExpansion(props, actions)
    ensures forall i :: 0 <= i < |actions| ==>
      EffectiveVariables(PublishProjectVariables(props, ctx), actions[i]) ==
        map["domainName" := props.domainName, "repositoryName" := props.repositoryName,
            "domainOwner" := ctx.account, "region" := Helpers.Regions(props)[i]]
    ensures EffectiveVariables(PublishProjectVariables(props, ctx), actions[|actions| - 1]) ==
      PublishProjectVariables(props, ctx)
    ensures props.primaryRegion !in props.replicaRegions ==>
      forall i :: 0 <= i < |actions| - 1 ==>
        EffectiveVariables(PublishProjectVariables(props, ctx), actions[i])["region"] != props.primaryRegion
  {
    var defaults := PublishProjectVariables(props, ctx);
    forall i | 0 <= i < |actions|
      ensures EffectiveVariables(defaults, actions[i]) ==
        map["domainName" := props.domainName, "repositoryName" := props.repositoryName,
            "domainOwner" := ctx.account, "region" := Helpers.Regions(props)[i]]
    {
      var region := Helpers.Regions(props)[i];
      var expected := map["domainName" := props.domainName, "repositoryName" := props.repositoryName,
                          "domainOwner" := ctx.account, "region" := region];
      var got := EffectiveVariables(defaults, actions[i]);
      assert got == defaults + map["region" := region];
      assert got.Keys == expected.Keys;
    }
  }

  /** The first statement grants `codeartifact:*` on exactly the helper's
      identifiers, which (read back as ARNs) are CodeArtifact resources of
      the configured regions in the stack's account; the second grants only
      the bearer-token action, conditioned on the CodeArtifact service. */
  lemma AccessPolicyScope(props: Helpers.PublishPipelineStackProps, ctx: Arn.StackContext)
    requires Arn.WellFormedContext(ctx) && Helpers.ColonFreeNames(props)
    ensures var policy := CodeArtifactAccessPolicy(Helpers.CodeArtifactArns(props, ctx));
      && |policy.statements| == 2
      && policy.statements[0].actions == ["codeartifact:*"]
      && |policy.statements[0].resources| == 4 * (|props.replicaRegions| + 1)
      && (forall r :: r in policy.statements[0].resources ==>
            && Arn.ArnService(r) == "codeartifact"
            && Arn.ArnRegion(r) in Helpers.Regions(props)
            && Arn.ArnAccount(r) == ctx.account)
      && policy.statements[1].actions == ["sts:GetServiceBearerToken"]
      && policy.statements[1].resources == ["*"]
      && policy.statements[1].conditions == [StringEquals("sts:AWSServiceName", "codeartifact.amazonaws.com")]
      && policy.roles == [PublishPackageProject]
  {
    Helpers.CodeArtifactArnsLayout(props, ctx);
    Helpers.CodeArtifactArnsScope(props, ctx);
  }

  /** The region part of a console URL: the host label after "https://". */
  function ConsoleRegion(url: string): string
  {
    if |url| >= 8 then Strings.HeadBefore(url[8..], '.') else []
  }

  /** The URL, regrouped as scheme, region label, separator and the rest. */
  lemma PipelineUrlShape(r: string, n: string)
    ensures PipelineUrl(r, n) == "https://" + (r + ['.'] + (ConsolePipelinesPath + (n + "/view")))
  {
    assert "." == ['.'];
  }

  /** The URL names the primary region as its first host label, and different
      (region, pipeline name) pairs never share a URL. */
  lemma PipelineUrlReadsBack(r1: string, n1: string, r2: string, n2: string)
    requires '.' !in r1 && '.' !in r2
    ensures ConsoleRegion(PipelineUrl(r1, n1)) == r1
    ensures PipelineUrl(r1, n1) == PipelineUrl(r2, n2) <==> r1 == r2 && n1 == n2
  {
    var rest1 := ConsolePipelinesPath + (n1 + "/view");
    var rest2 := ConsolePipelinesPath + (n2 + "/view");
    PipelineUrlShape(r1, n1);
    PipelineUrlShape(r2, n2);
    assert PipelineUrl(r1, n1)[8..] == r1 + ['.'] + rest1;
    Strings.SplitJoined(r1, '.', rest1);
    Strings.SplitJoined(r2, '.', rest2);
    if PipelineUrl(r1, n1) == PipelineUrl(r2, n2) {
      Strings.CancelPrefix("https://", r1 + ['.'] + rest1, r2 + ['.'] + rest2);
      assert r1 == r2 && rest1 == rest2;
      Strings.CancelPrefix(ConsolePipelinesPath, n1 + "/view", n2 + "/view");
      Strings.CancelSuffix(n1, n2, "/view");
    }
  }

  /** The deployment configured by the entry point: two replicas and a
      primary give three publish actions named after their regions, in
      order, and twelve identifiers in the access policy. */
  lemma ExampleDeployment(ctx: Arn.StackContext, actions: seq<Action>)
    requires IsPublishExpansion(Helpers.PublishPipelineStackProps(
      "custom-package-domain", "package-artifact-repo", "us-east-1", ["us-west-2", "us-east-2"]), actions)
    ensures |actions| == 3
    ensures actions[0].actionName == "PublishToRegion-us-west-2"
    ensures actions[1].actionName == "PublishToRegion-us-east-2"
    ensures actions[2].actionName == "PublishToRegion-us-east-1"
    ensures |CodeArtifactAccessPolicy(Helpers.CodeArtifactArns(Helpers.PublishPipelineStackProps(
      "custom-package-domain", "package-artifact-repo", "us-east-1", ["us-west-2", "us-east-2"]), ctx))
      .statements[0].resources| == 12
  {
    var props := Helpers.PublishPipelineStackProps(
      "custom-package-domain", "package-artifact-repo", "us-east-1", ["us-west-2", "us-east-2"]);
    assert Helpers.Regions(props) == ["us-west-2", "us-east-2", "us-east-1"];
    Helpers.CodeArtifactArnsLayout(props, ctx);
  }
}
