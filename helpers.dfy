/** `GenerateCodeArtifactArns` (lib/helpers.ts): the list of CodeArtifact
    resource identifiers the publishing role is granted access to, four per
    region, regions visited as the replicas in input order and the primary last. */
module Helpers {
  import Arn

  /** The stack properties the region loops read. */
  datatype PublishPipelineStackProps = PublishPipelineStackProps(
    domainName: string,
    repositoryName: string,
    primaryRegion: string,
    replicaRegions: seq<string>)

  /** `[...props.replicaRegions, props.primaryRegion]`: the traversal order of
      both region loops. */
  function Regions(props: PublishPipelineStackProps): seq<string>
  {
    props.replicaRegions + [props.primaryRegion]
  }

  function RepositoryArn(props: PublishPipelineStackProps, ctx: Arn.StackContext, region: string): string
  {
    Arn.Format(ctx, Arn.ArnComponents("codeartifact", "repository", region,
                                      props.domainName + "/" + props.repositoryName))
  }

  function DomainArn(props: PublishPipelineStackProps, ctx: Arn.StackContext, region: string): string
  {
    Arn.Format(ctx, Arn.ArnComponents("codeartifact", "domain", region, props.domainName))
  }

  function PackageArn(props: PublishPipelineStackProps, ctx: Arn.StackContext, region: string): string
  {
    Arn.Format(ctx, Arn.ArnComponents("codeartifact", "package", region,
                                      props.domainName + "/" + props.repositoryName + "/*"))
  }

  /** The four identifiers one loop iteration pushes for `region`. */
  function RegionBlock(props: PublishPipelineStackProps, ctx: Arn.StackContext, region: string): seq<string>
  {
    [RepositoryArn(props, ctx, region), RepositoryArn(props, ctx, region) + "/*",
     DomainArn(props, ctx, region), PackageArn(props, ctx, region)]
  }

  /** The list after the loop has visited `regions`, one block per region
      appended in visiting order. */
  function ArnsFor(props: PublishPipelineStackProps, ctx: Arn.StackContext, regions: seq<string>): seq<string>
    decreases |regions|
  {
    if |regions| == 0 then []
    else ArnsFor(props, ctx, regions[..|regions| - 1]) + RegionBlock(props, ctx, regions[|regions| - 1])
  }

  /** The specification of `GenerateCodeArtifactArns`. */
  function CodeArtifactArns(props: PublishPipelineStackProps, ctx: Arn.StackContext): seq<string>
  {
    ArnsFor(props, ctx, Regions(props))
  }

  /** The helper itself: a loop over the regions pushing four identifiers each. */
  method GenerateCodeArtifactArns(props: PublishPipelineStackProps, ctx: Arn.StackContext)
    returns (codeArtifactArns: seq<string>)
    ensures codeArtifactArns == CodeArtifactArns(props, ctx)
    ensures |codeArtifactArns| == 4 * (|props.replicaRegions| + 1)
  {
    codeArtifactArns := [];
    var regions := props.replicaRegions + [props.primaryRegion];
    var i := 0;
    while i < |regions|
      invariant 0 <= i <= |regions|
      invariant codeArtifactArns == ArnsFor(props, ctx, regions[..i])
    {
      var region := regions[i];
      var codeArtifactRepoArn := Arn.Format(ctx, Arn.ArnComponents(
        "codeartifact", "repository", region, props.domainName + "/" + props.repositoryName));
      var codeArtifactDomainArn := Arn.Format(ctx, Arn.ArnComponents(
        "codeartifact", "domain", region, props.domainName));
      var packageArn := Arn.Format(ctx, Arn.ArnComponents(
        "codeartifact", "package", region, props.domainName + "/" + props.repositoryName + "/*"));
      codeArtifactArns := codeArtifactArns + [codeArtifactRepoArn];
      codeArtifactArns := codeArtifactArns + [codeArtifactRepoArn + "/*"];
      codeArtifactArns := codeArtifactArns + [codeArtifactDomainArn];
      codeArtifactArns := codeArtifactArns + [packageArn];
      assert regions[..i + 1][..i] == regions[..i];
      i := i + 1;
    }
    assert regions[..i] == regions;
    ArnsForLength(props, ctx, regions);
  }

  /** Each visited region contributes exactly four identifiers. */
  lemma {:induction false} ArnsForLength(props: PublishPipelineStackProps, ctx: Arn.StackContext, regions: seq<string>)
    ensures |ArnsFor(props, ctx, regions)| == 4 * |regions|
  {
    if |regions| > 0 {
      ArnsForLength(props, ctx, regions[..|regions| - 1]);
    }
  }

  /** Block `i` of the list is the block of the `i`-th visited region. */
  lemma {:induction false} ArnsForBlock(props: PublishPipelineStackProps, ctx: Arn.StackContext, regions: seq<string>, i: nat)
    requires i < |regions|
    ensures |ArnsFor(props, ctx, regions)| == 4 * |regions|
    ensures ArnsFor(props, ctx, regions)[4 * i..4 * i + 4] == RegionBlock(props, ctx, regions[i])
  {
    var n := |regions|;
    var front := regions[..n - 1];
    ArnsForLength(props, ctx, regions);
    ArnsForLength(props, ctx, front);
    if i < n - 1 {
      ArnsForBlock(props, ctx, front, i);
      assert front[i] == regions[i];
    }
  }

  /** The layout of the helper's result: `4 * (|replicaRegions| + 1)` entries;
      block `i` belongs to the `i`-th region of replicas-then-primary and holds
      repository, repository contents (the repository identifier with a
      wildcard suffix), domain and package, in that order. */
  lemma CodeArtifactArnsLayout(props: PublishPipelineStackProps, ctx: Arn.StackContext)
    ensures |CodeArtifactArns(props, ctx)| == 4 * (|props.replicaRegions| + 1)
    ensures forall i :: 0 <= i < |Regions(props)| ==>
      var arns, region := CodeArtifactArns(props, ctx), Regions(props)[i];
      && arns[4 * i] == RepositoryArn(props, ctx, region)
      && arns[4 * i + 1] == arns[4 * i] + "/*"
      && arns[4 * i + 2] == DomainArn(props, ctx, region)
      && arns[4 * i + 3] == PackageArn(props, ctx, region)
  {
    var arns := CodeArtifactArns(props, ctx);
    ArnsForLength(props, ctx, Regions(props));
    forall i | 0 <= i < |Regions(props)|
      ensures arns[4 * i] == RepositoryArn(props, ctx, Regions(props)[i])
      ensures arns[4 * i + 1] == arns[4 * i] + "/*"
      ensures arns[4 * i + 2] == DomainArn(props, ctx, Regions(props)[i])
      ensures arns[4 * i + 3] == PackageArn(props, ctx, Regions(props)[i])
    {
      ArnsForBlock(props, ctx, Regions(props), i);
      var block := arns[4 * i..4 * i + 4];
      assert block[0] == arns[4 * i] && block[1] == arns[4 * i + 1];
      assert block[2] == arns[4 * i + 2] && block[3] == arns[4 * i + 3];
    }
  }

  /** Names without a colon, as CodeArtifact domain and repository names are. */
  predicate ColonFreeNames(props: PublishPipelineStackProps)
  {
    ':' !in props.domainName && ':' !in props.repositoryName &&
    forall r :: r in Regions(props) ==> ':' !in r
  }

  /** The repository identifier of `region`, with or without the contents
      wildcard appended, read back as an ARN. */
  lemma RepositoryArnReadBack(props: PublishPipelineStackProps, ctx: Arn.StackContext, region: string, suffix: string)
    requires Arn.WellFormedContext(ctx)
    requires ':' !in props.domainName && ':' !in props.repositoryName && ':' !in region && ':' !in suffix
    ensures var arn := RepositoryArn(props, ctx, region) + suffix;
      && Arn.ArnService(arn) == "codeartifact"
      && Arn.ArnRegion(arn) == region
      && Arn.ArnAccount(arn) == ctx.account
      && Arn.ArnResourcePath(arn) == "repository/" + props.domainName + "/" + props.repositoryName + suffix
  {
    var path := props.domainName + "/" + props.repositoryName;
    assert ':' !in "repository/" + path + suffix;
    Arn.FormatReadsBack(ctx, Arn.ArnComponents("codeartifact", "repository", region, path), suffix);
  }

  /** The domain identifier of `region`, read back as an ARN. */
  lemma DomainArnReadBack(props: PublishPipelineStackProps, ctx: Arn.StackContext, region: string)
    requires Arn.WellFormedContext(ctx)
    requires ':' !in props.domainName && ':' !in region
    ensures var arn := DomainArn(props, ctx, region);
      && Arn.ArnService(arn) == "codeartifact"
      && Arn.ArnRegion(arn) == region
      && Arn.ArnAccount(arn) == ctx.account
      && Arn.ArnResourcePath(arn) == "domain/" + props.domainName
  {
    var domain := Arn.ArnComponents("codeartifact", "domain", region, props.domainName);
    assert ':' !in "domain/" + props.domainName;
    Arn.FormatReadsBack(ctx, domain, "");
    assert Arn.Format(ctx, domain) + "" == Arn.Format(ctx, domain);
  }

  /** The package identifier of `region`, read back as an ARN. */
  lemma PackageArnReadBack(props: PublishPipelineStackProps, ctx: Arn.StackContext, region: string)
    requires Arn.WellFormedContext(ctx)
    requires ':' !in props.domainName && ':' !in props.repositoryName && ':' !in region
    ensures var arn := PackageArn(props, ctx, region);
      && Arn.ArnService(arn) == "codeartifact"
      && Arn.ArnRegion(arn) == region
      && Arn.ArnAccount(arn) == ctx.account
      && Arn.ArnResourcePath(arn) == "package/" + props.domainName + "/" + props.repositoryName + "/*"
  {
    var path := props.domainName + "/" + props.repositoryName;
    var pkg := Arn.ArnComponents("codeartifact", "package", region, path + "/*");
    assert ':' !in "package/" + path + "/*";
    Arn.FormatReadsBack(ctx, pkg, "");
    assert Arn.Format(ctx, pkg) + "" == Arn.Format(ctx, pkg);
  }

  /** One identifier of a region's block, read back as an ARN. */
  lemma BlockEntryReadBack(props: PublishPipelineStackProps, ctx: Arn.StackContext, region: string, slot: nat)
    requires Arn.WellFormedContext(ctx)
    requires ':' !in props.domainName && ':' !in props.repositoryName && ':' !in region
    requires slot < 4
    ensures var arn := RegionBlock(props, ctx, region)[slot];
      && Arn.ArnService(arn) == "codeartifact"
      && Arn.ArnRegion(arn) == region
      && Arn.ArnAccount(arn) == ctx.account
      && Arn.ArnResourcePath(arn) == ResourcePathOfSlot(props, slot)
  {
    var arn := RegionBlock(props, ctx, region)[slot];
    var path := props.domainName + "/" + props.repositoryName;
    if slot == 0 {
      assert arn == RepositoryArn(props, ctx, region) + "";
      assert ResourcePathOfSlot(props, slot) == "repository/" + path + "";
      RepositoryArnReadBack(props, ctx, region, "");
    } else if slot == 1 {
      assert arn == RepositoryArn(props, ctx, region) + "/*";
      assert ResourcePathOfSlot(props, slot) == "repository/" + path + "/*";
      RepositoryArnReadBack(props, ctx, region, "/*");
    } else if slot == 2 {
      assert arn == DomainArn(props, ctx, region);
      DomainArnReadBack(props, ctx, region);
    } else {
      assert arn == PackageArn(props, ctx, region);
      PackageArnReadBack(props, ctx, region);
    }
  }

  /** Read back as ARNs, the entries of the result name the "codeartifact"
      service, the region of their block, the stack's account and, by kind,
      the resource paths of their slot (`ResourcePathOfSlot`). */
  lemma CodeArtifactArnsReadBack(props: PublishPipelineStackProps, ctx: Arn.StackContext)
    requires Arn.WellFormedContext(ctx) && ColonFreeNames(props)
    ensures forall k :: 0 <= k < |CodeArtifactArns(props, ctx)| ==>
      var arn := CodeArtifactArns(props, ctx)[k];
      && k / 4 < |Regions(props)|
      && Arn.ArnService(arn) == "codeartifact"
      && Arn.ArnRegion(arn) == Regions(props)[k / 4]
      && Arn.ArnAccount(arn) == ctx.account
      && Arn.ArnResourcePath(arn) == ResourcePathOfSlot(props, k % 4)
  {
    var arns := CodeArtifactArns(props, ctx);
    ArnsForLength(props, ctx, Regions(props));
    forall k | 0 <= k < |arns|
      ensures k / 4 < |Regions(props)|
      ensures Arn.ArnService(arns[k]) == "codeartifact"
      ensures Arn.ArnRegion(arns[k]) == Regions(props)[k / 4]
      ensures Arn.ArnAccount(arns[k]) == ctx.account
      ensures Arn.ArnResourcePath(arns[k]) == ResourcePathOfSlot(props, k % 4)
    {
      var i, slot := k / 4, k % 4;
      var region := Regions(props)[i];
      assert region in Regions(props);
      ArnsForBlock(props, ctx, Regions(props), i);
      assert arns[k] == arns[4 * i..4 * i + 4][slot];
      BlockEntryReadBack(props, ctx, region, slot);
    }
  }

  /** Every identifier in the result is a CodeArtifact resource of one of the
      configured regions, in the stack's account. */
  lemma CodeArtifactArnsScope(props: PublishPipelineStackProps, ctx: Arn.StackContext)
    requires Arn.WellFormedContext(ctx) && ColonFreeNames(props)
    ensures forall arn :: arn in CodeArtifactArns(props, ctx) ==>
      && Arn.ArnService(arn) == "codeartifact"
      && Arn.ArnRegion(arn) in Regions(props)
      && Arn.ArnAccount(arn) == ctx.account
  {
    var arns := CodeArtifactArns(props, ctx);
    CodeArtifactArnsReadBack(props, ctx);
    forall arn | arn in arns
      ensures Arn.ArnService(arn) == "codeartifact"
      ensures Arn.ArnRegion(arn) in Regions(props)
      ensures Arn.ArnAccount(arn) == ctx.account
    {
      var k :| 0 <= k < |arns| && arns[k] == arn;
      assert Arn.ArnRegion(arns[k]) == Regions(props)[k / 4];
    }
  }

  /** The resource path of each of the four slots of a block. */
  function ResourcePathOfSlot(props: PublishPipelineStackProps, slot: nat): string
  {
    var path := props.domainName + "/" + props.repositoryName;
    if slot == 0 then "repository/" + path
    else if slot == 1 then "repository/" + path + "/*"
    else if slot == 2 then "domain/" + props.domainName
    else "package/" + path + "/*"
  }

  /** The four slots of a block have pairwise different resource paths. */
  lemma SlotPathsDistinct(props: PublishPipelineStackProps, s1: nat, s2: nat)
    requires s1 < 4 && s2 < 4 && s1 != s2
    ensures ResourcePathOfSlot(props, s1) != ResourcePathOfSlot(props, s2)
  {
    var path := props.domainName + "/" + props.repositoryName;
    var p1, p2 := ResourcePathOfSlot(props, s1), ResourcePathOfSlot(props, s2);
    assert "repository/"[0] == 'r' && "domain/"[0] == 'd' && "package/"[0] == 'p';
    if (s1 == 0 && s2 == 1) || (s1 == 1 && s2 == 0) {
      assert |"repository/" + path + "/*"| == |"repository/" + path| + 2;
    } else {
      assert p1[0] != p2[0];
    }
  }

  /** Two entries of the result are equal exactly when they come from blocks
      of the same region and sit in the same slot: the list holds duplicates
      only where a region is listed twice. */
  lemma ArnsEqualExactlyWhenRegionAndSlotMatch(props: PublishPipelineStackProps, ctx: Arn.StackContext, k1: nat, k2: nat)
    requires Arn.WellFormedContext(ctx) && ColonFreeNames(props)
    requires k1 < |CodeArtifactArns(props, ctx)| && k2 < |CodeArtifactArns(props, ctx)|
    ensures k1 / 4 < |Regions(props)| && k2 / 4 < |Regions(props)|
    ensures CodeArtifactArns(props, ctx)[k1] == CodeArtifactArns(props, ctx)[k2] <==>
      Regions(props)[k1 / 4] == Regions(props)[k2 / 4] && k1 % 4 == k2 % 4
  {
    var arns := CodeArtifactArns(props, ctx);
    var i1, i2, slot1, slot2 := k1 / 4, k2 / 4, k1 % 4, k2 % 4;
    ArnsForLength(props, ctx, Regions(props));
    ArnsForBlock(props, ctx, Regions(props), i1);
    ArnsForBlock(props, ctx, Regions(props), i2);
    assert k1 == 4 * i1 + slot1 && k2 == 4 * i2 + slot2;
    var r1, r2 := Regions(props)[i1], Regions(props)[i2];
    assert arns[k1] == arns[4 * i1..4 * i1 + 4][slot1] == RegionBlock(props, ctx, r1)[slot1];
    assert arns[k2] == arns[4 * i2..4 * i2 + 4][slot2] == RegionBlock(props, ctx, r2)[slot2];
    assert r1 in Regions(props) && r2 in Regions(props);
    BlockEntryReadBack(props, ctx, r1, slot1);
    BlockEntryReadBack(props, ctx, r2, slot2);
    if slot1 != slot2 {
      SlotPathsDistinct(props, slot1, slot2);
    }
  }

  /** No deduplication: when the primary region is also listed as replica `j`,
      its block appears twice, at block `j` and at the last block. */
  lemma PrimaryListedAsReplicaRepeatsBlock(props: PublishPipelineStackProps, ctx: Arn.StackContext, j: nat)
    requires j < |props.replicaRegions| && props.replicaRegions[j] == props.primaryRegion
    ensures var arns, n := CodeArtifactArns(props, ctx), |props.replicaRegions|;
      |arns| == 4 * (n + 1) && arns[4 * j..4 * j + 4] == arns[4 * n..4 * n + 4]
  {
    var n := |props.replicaRegions|;
    ArnsForBlock(props, ctx, Regions(props), j);
    ArnsForBlock(props, ctx, Regions(props), n);
  }
}
