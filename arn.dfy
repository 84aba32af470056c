/** The ARN formatter the stack calls (`Arn.format` of the CDK library), with
    its default layout `arn:partition:service:region:account:resource/resourceName`,
    and readers for the fields of a formatted ARN. The partition and the account
    are tokens of the enclosing stack; they are inputs here. */
module Arn {
  import Strings

  /** The arguments the stack passes to `Arn.format`. */
  datatype ArnComponents = ArnComponents(
    service: string,
    resource: string,
    region: string,
    resourceName: string)

  /** What `Arn.format` takes from the stack it is given. */
  datatype StackContext = StackContext(partition: string, account: string)

  /** A stack whose partition and account tokens resolve to colon-free text,
      as AWS partitions ("aws", "aws-cn", ...) and account ids do. */
  predicate WellFormedContext(ctx: StackContext)
  {
    ':' !in ctx.partition && ':' !in ctx.account
  }

  function Fields(ctx: StackContext, c: ArnComponents): seq<string>
  {
    ["arn", ctx.partition, c.service, c.region, ctx.account, c.resource + "/" + c.resourceName]
  }

  /** `Arn.format(components, stack)`: deterministic in its arguments. */
  function Format(ctx: StackContext, c: ArnComponents): string
  {
    Strings.Join(Fields(ctx, c), ':')
  }

  function ArnPartition(arn: string): string { Strings.Field(arn, ':', 1) }
  function ArnService(arn: string): string { Strings.Field(arn, ':', 2) }
  function ArnRegion(arn: string): string { Strings.Field(arn, ':', 3) }
  function ArnAccount(arn: string): string { Strings.Field(arn, ':', 4) }
  function ArnResourcePath(arn: string): string { Strings.Field(arn, ':', 5) }

  /** Every field of a formatted ARN reads back as the argument it came from,
      and text appended to it (such as the wildcard suffix of a contents scope) lands in
      the resource path only. */
  lemma FormatReadsBack(ctx: StackContext, c: ArnComponents, suffix: string)
    requires WellFormedContext(ctx)
    requires ':' !in c.service && ':' !in c.region
    requires ':' !in c.resource + "/" + c.resourceName + suffix
    ensures Strings.Field(Format(ctx, c) + suffix, ':', 0) == "arn"
    ensures ArnPartition(Format(ctx, c) + suffix) == ctx.partition
    ensures ArnService(Format(ctx, c) + suffix) == c.service
    ensures ArnRegion(Format(ctx, c) + suffix) == c.region
    ensures ArnAccount(Format(ctx, c) + suffix) == ctx.account
    ensures ArnResourcePath(Format(ctx, c) + suffix) == c.resource + "/" + c.resourceName + suffix
  {
    var fs := Fields(ctx, c);
    Strings.JoinAppend(fs, ':', suffix);
    var grown := fs[..5] + [fs[5] + suffix];
    assert grown == ["arn", ctx.partition, c.service, c.region, ctx.account, c.resource + "/" + c.resourceName + suffix];
    forall k | 0 <= k < 6
      ensures Strings.Field(Strings.Join(grown, ':'), ':', k) == grown[k]
    {
      Strings.FieldOfJoin(grown, ':', k);
    }
  }

  /** Two ARNs formatted in one stack from colon-free arguments are equal
      exactly when their arguments are. */
  lemma FormatInjective(ctx: StackContext, c1: ArnComponents, c2: ArnComponents)
    requires WellFormedContext(ctx)
    requires ':' !in c1.service && ':' !in c1.region && ':' !in c1.resource + "/" + c1.resourceName
    requires ':' !in c2.service && ':' !in c2.region && ':' !in c2.resource + "/" + c2.resourceName
    ensures Format(ctx, c1) == Format(ctx, c2) <==>
      c1.service == c2.service && c1.region == c2.region &&
      c1.resource + "/" + c1.resourceName == c2.resource + "/" + c2.resourceName
  {
    FormatReadsBack(ctx, c1, "");
    FormatReadsBack(ctx, c2, "");
    assert Format(ctx, c1) + "" == Format(ctx, c1);
    assert Format(ctx, c2) + "" == Format(ctx, c2);
    assert c1.resource + "/" + c1.resourceName + "" == c1.resource + "/" + c1.resourceName;
    assert c2.resource + "/" + c2.resourceName + "" == c2.resource + "/" + c2.resourceName;
  }
}
