/**
 * The ECS task state-change formatter of handlers/ecsTaskHandler.js: the
 * cluster, service and task definition are cut out of their ARNs, the colour
 * follows the task's last status, and a link leads to the service's tasks.
 */
module EcsTask {
  import opened Wrappers
  import opened Strings
  import opened Js
  import opened Slack
  import opened Sns
  import opened Console

  /** `message.detail` of an "ECS Task State Change" event. */
  datatype EcsDetail = EcsDetail(
    clusterArn: string,
    group: string,
    taskDefinitionArn: string,
    lastStatus: string,
    startedBy: string)

  /** The decoded event (`JSON.parse(Sns.Message)`). */
  datatype EcsEvent = EcsEvent(detailType: string, region: string, detail: EcsDetail)

  const TaskTitles: seq<string> := ["Cluster", "Service", "Task Definition", "Status", "Started By", "Link to Task"]

  const TaskShorts: seq<bool> := [true, true, true, true, true, false]

  /** `clusterArn.split('/').pop()`. */
  function ClusterName(clusterArn: string): string
  {
    LastSegment(clusterArn, '/')
  }

  /** `group.split(":").pop()`. */
  function ServiceName(group: string): string
  {
    LastSegment(group, ':')
  }

  /** `taskDefinitionArn.split("/").pop()`. */
  function TaskDefinition(taskDefinitionArn: string): string
  {
    LastSegment(taskDefinitionArn, '/')
  }

  /**
   * The cluster name is what follows the last `/` of the ARN, as in
   * `arn:aws:ecs:us-west-2:example:cluster/example-cluster`; an ARN without
   * `/` is taken whole. Either way it holds no `/`.
   */
  lemma ClusterNameOfArn(arnPrefix: string, name: string)
    requires '/' !in name
    ensures ClusterName(arnPrefix + "/" + name) == name
    ensures ClusterName(name) == name
    ensures forall arn :: '/' !in ClusterName(arn)
  {
    LastSegmentAfterSeparator(arnPrefix, name, '/');
    LastSegmentIsSuffix(name, '/');
    forall arn: string
      ensures '/' !in ClusterName(arn)
    {
      LastSegmentIsSuffix(arn, '/');
    }
  }

  /** The service name is what follows the last `:` of the group, as in `service:example-service`. */
  lemma ServiceNameOfGroup(name: string)
    requires ':' !in name
    ensures ServiceName("service:" + name) == name
  {
    assert "service:" + name == "service" + [':'] + name;
    LastSegmentAfterSeparator("service", name, ':');
  }

  /** The task definition is what follows the last `/`, e.g. `family:revision`, and holds no `/`. */
  lemma TaskDefinitionOfArn(arnPrefix: string, familyRevision: string)
    requires '/' !in familyRevision
    ensures TaskDefinition(arnPrefix + "/" + familyRevision) == familyRevision
    ensures forall arn :: '/' !in TaskDefinition(arn)
  {
    LastSegmentAfterSeparator(arnPrefix, familyRevision, '/');
    forall arn: string
      ensures '/' !in TaskDefinition(arn)
    {
      LastSegmentIsSuffix(arn, '/');
    }
  }

  /** The `switch (status)`: a stopped task is red, a running one green, pending or other amber. */
  function TaskColor(status: string): (c: Color)
    ensures c == Danger <==> status == "STOPPED"
    ensures c == Good <==> status == "RUNNING"
    ensures c == Warning <==> status != "STOPPED" && status != "RUNNING"
  {
    match status
    case "STOPPED" => Danger
    case "RUNNING" => Good
    case "PENDING" => Warning
    case _ => Warning
  }

  /** `home?region=<region>#`: the service's console page, up to its fragment. */
  function RegionPage(region: string): string
  {
    "home?region=" + region + "#"
  }

  /**
   * The console link to the service's tasks,
   * `https://<region>.console.aws.amazon.com/ecs/home?region=<region>#/clusters/<cluster>/services/<service>/tasks`.
   */
  function TaskLink(region: string, clusterName: string, serviceName: string): string
  {
    "https://" + ConsoleHost(region) + "/ecs/" + RegionPage(region)
    + "/clusters/" + clusterName + "/services/" + serviceName + "/tasks"
  }

  /**
   * Read as a path, the link is the region's console host, then the `ecs`
   * page for the region, then the cluster and the service, in that order.
   */
  lemma TaskLinkPath(region: string, clusterName: string, serviceName: string)
    requires '/' !in region && '/' !in clusterName && '/' !in serviceName
    ensures Split(TaskLink(region, clusterName, serviceName), '/')
      == ["https:", "", ConsoleHost(region), "ecs", RegionPage(region),
          "clusters", clusterName, "services", serviceName, "tasks"]
  {
    var host, page := ConsoleHost(region), RegionPage(region);
    LinkPiecesSplit();
    HostAndPageHaveNoSlash(region);
    assert TaskLink(region, clusterName, serviceName)
      == ("https:" + ['/'] + "" + ['/']) + host + (['/'] + "ecs" + ['/']) + page
         + (['/'] + "clusters" + ['/']) + clusterName + (['/'] + "services" + ['/']) + serviceName + (['/'] + "tasks");
    RegroupTaskLink("https:", "", host, "ecs", page, "clusters", clusterName, "services", serviceName, "tasks", '/');
    var console := "https:" + ['/'] + "" + ['/'] + host + ['/'] + "ecs" + ['/'] + page;
    var path := "clusters" + ['/'] + clusterName + ['/'] + "services" + ['/'] + serviceName + ['/'] + "tasks";
    SplitFive("https:", "", host, "ecs", page, '/');
    SplitFive("clusters", clusterName, "services", serviceName, "tasks", '/');
    SplitConcat(console, path, '/');
  }

  /** The fixed pieces of the link that hold a `/`, each split at it. */
  lemma LinkPiecesSplit()
    ensures "https://" == "https:" + ['/'] + "" + ['/']
    ensures "/ecs/" == ['/'] + "ecs" + ['/']
    ensures "/clusters/" == ['/'] + "clusters" + ['/']
    ensures "/services/" == ['/'] + "services" + ['/']
    ensures "/tasks" == ['/'] + "tasks"
  {
  }

  lemma HostAndPageHaveNoSlash(region: string)
    requires '/' !in region
    ensures '/' !in ConsoleHost(region) && '/' !in RegionPage(region)
  {
    ConsoleHostHasNoSlash(region);
    var query := "home?region=";
    assert forall i | 0 <= i < |query| :: query[i] != '/';
  }

  /** Regrouping the link's pieces into the console page and the task path around one `/`. */
  lemma RegroupTaskLink(a: string, b: string, host: string, e: string, page: string,
                        cs: string, cluster: string, ss: string, service: string, t: string, d: char)
    ensures (a + [d] + b + [d]) + host + ([d] + e + [d]) + page + ([d] + cs + [d]) + cluster
            + ([d] + ss + [d]) + service + ([d] + t)
      == (a + [d] + b + [d] + host + [d] + e + [d] + page) + [d]
         + (cs + [d] + cluster + [d] + ss + [d] + service + [d] + t)
  {
  }

  /** The six task fields. */
  function TaskFields(region: string, detail: EcsDetail): (fields: seq<Field>)
    ensures Titles(fields) == TaskTitles
    ensures Shorts(fields) == TaskShorts
    ensures var clusterName, serviceName := ClusterName(detail.clusterArn), ServiceName(detail.group);
      Values(fields) == [
        JString(clusterName), JString(serviceName), JString(TaskDefinition(detail.taskDefinitionArn)),
        JString(detail.lastStatus), JString(detail.startedBy), JString(TaskLink(region, clusterName, serviceName))]
  {
    var clusterName := ClusterName(detail.clusterArn);
    var serviceName := ServiceName(detail.group);
    var taskDefinition := TaskDefinition(detail.taskDefinitionArn);
    var link := TaskLink(region, clusterName, serviceName);
    [ Field("Cluster", JString(clusterName), true),
      Field("Service", JString(serviceName), true),
      Field("Task Definition", JString(taskDefinition), true),
      Field("Status", JString(detail.lastStatus), true),
      Field("Started By", JString(detail.startedBy), true),
      Field("Link to Task", JString(link), false) ]
  }

  /** The exported formatter. `event` is the decoded `Sns.Message`. */
  function Format(rec: SnsRecord, event: EcsEvent): (m: Message)
    ensures m.channel.None?
    ensures m.text == Bold(event.detailType)
    ensures |m.attachments| == 1
    ensures m.attachments[0].color == TaskColor(event.detail.lastStatus)
    ensures m.attachments[0].fields == TaskFields(event.region, event.detail)
    ensures m.attachments[0].ts == rec.timestamp
  {
    Message(None, Bold(event.detailType),
      [Attachment(TaskColor(event.detail.lastStatus), TaskFields(event.region, event.detail), rec.timestamp)])
  }
}
