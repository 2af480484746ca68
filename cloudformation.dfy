/**
  The operations of CloudFormationConnection: each builds the `params` dict
  from its arguments by guarded inserts, hands it to `make_request` with a
  fixed action, path and verb, and dispatches the reply.

  `makeRequest` stands for the signed transport and `decode` for `json.loads`;
  both are parameters, so every operation is a deterministic function of its
  arguments and of what those two collaborators answer.
 */
module CloudFormation {
  import opened Wrappers
  import opened Values
  import opened QueryParams
  import opened Responses
  import opened Decimal

  /** `encode_bool`: the query-string spelling of a flag, decided by truthiness. */
  function EncodeBool(v: Value): (r: string)
    ensures r == "true" <==> Truthy(v)
    ensures r == "false" <==> !Truthy(v)
    ensures r == "true" || r == "false"
  {
    if Truthy(v) then "true" else "false"
  }

  /** The arguments of `create_stack` except `notification_arns`. */
  datatype CreateStackArgs = CreateStackArgs(
    stackName: Value,
    templateBody: Value,
    templateUrl: Value,
    parameters: seq<(Value, Value)>,
    disableRollback: Value,
    timeoutInMinutes: Value)

  /** `create_stack(stack_name)` with every other argument at its default. */
  function CreateStackDefaults(stackName: Value): CreateStackArgs {
    CreateStackArgs(stackName, Null, Null, [], Bool(false), Null)
  }

  /** The keys other than the parameter members that `create_stack` can write. */
  const CreateStackKeys: set<string> :=
    {"ContentType", "StackName", "DisableRollback", "TemplateBody", "TemplateURL", "TimeoutInMinutes"}

  /** No member key is a fixed key of `create_stack`, so neither overwrites the other. */
  lemma MemberKeysNotFixed()
    ensures forall j: nat, f: string :: MemberKey(j, f) !in CreateStackKeys
  {
    forall j: nat, f: string
      ensures MemberKey(j, f) !in CreateStackKeys
    {
      MemberKeyHead(j, f);
    }
  }

  /** No fixed key of `create_stack` is a parameter member. */
  lemma FixedKeysAreNotMembers(ps: seq<(Value, Value)>)
    ensures forall k :: k in CreateStackKeys ==> k !in ParameterMembers(ps)
  {
    ParameterMembersOnly(ps);
    MemberKeysNotFixed();
    forall k | k in CreateStackKeys
      ensures k !in ParameterMembers(ps)
    {
      if k in ParameterMembers(ps) {
        var i :| 1 <= i <= |ps| && (k == MemberKey(i, KeyField) || k == MemberKey(i, ValueField));
      }
    }
  }

  /** The three keys `create_stack` always writes. */
  function CreateStackAlways(a: CreateStackArgs): Params {
    map["ContentType" := Str("JSON"), "StackName" := a.stackName,
        "DisableRollback" := Str(EncodeBool(a.disableRollback))]
  }

  /** The keys `create_stack` writes before the parameter loop. */
  function CreateStackFixed(a: CreateStackArgs): Params {
    CreateStackAlways(a)
    + Optional("TemplateBody", a.templateBody)
    + Optional("TemplateURL", a.templateUrl)
  }

  /**
    Before the loop the dict holds ContentType, StackName and DisableRollback,
    and each template key exactly when its argument is truthy.
   */
  lemma CreateStackFixedEntries(a: CreateStackArgs)
    ensures var m := CreateStackFixed(a);
      && "ContentType" in m && m["ContentType"] == Str("JSON")
      && "StackName" in m && m["StackName"] == a.stackName
      && "DisableRollback" in m && m["DisableRollback"] == Str(EncodeBool(a.disableRollback))
      && ("TemplateBody" in m <==> Truthy(a.templateBody))
      && ("TemplateBody" in m ==> m["TemplateBody"] == a.templateBody)
      && ("TemplateURL" in m <==> Truthy(a.templateUrl))
      && ("TemplateURL" in m ==> m["TemplateURL"] == a.templateUrl)
      && m.Keys <= CreateStackKeys - {"TimeoutInMinutes"}
  {
    var always := CreateStackAlways(a);
    assert always.Keys == {"ContentType", "StackName", "DisableRollback"};
  }

  /** Appending the member series keeps the fixed entries and adds members 1..n and nothing else. */
  lemma FixedThenMembers(fixed: Params, ps: seq<(Value, Value)>)
    requires fixed.Keys <= CreateStackKeys
    ensures forall k :: k in fixed ==> k in fixed + ParameterMembers(ps) && (fixed + ParameterMembers(ps))[k] == fixed[k]
    ensures forall k :: k in CreateStackKeys && k !in fixed ==> k !in fixed + ParameterMembers(ps)
    ensures forall i :: 1 <= i <= |ps| ==>
      && MemberKey(i, KeyField) in fixed + ParameterMembers(ps)
      && (fixed + ParameterMembers(ps))[MemberKey(i, KeyField)] == ps[i - 1].0
      && MemberKey(i, ValueField) in fixed + ParameterMembers(ps)
      && (fixed + ParameterMembers(ps))[MemberKey(i, ValueField)] == ps[i - 1].1
    ensures forall j: nat, f: string :: j < 1 || j > |ps| ==> MemberKey(j, f) !in fixed + ParameterMembers(ps)
    ensures forall k :: k in fixed + ParameterMembers(ps) ==> k in CreateStackKeys || IsMemberKey(k, |ps|)
  {
    ParameterMembersExact(ps);
    MemberKeysNotFixed();
    FixedKeysAreNotMembers(ps);
  }

  /**
    The `params` that `create_stack` sends, or the error `int()` raises on a
    truthy timeout that is not a number.
   */
  function CreateStackParams(a: CreateStackArgs): Result<Params, EncodeError> {
    var m := CreateStackFixed(a) + ParameterMembers(a.parameters);
    if !Truthy(a.timeoutInMinutes) then
      Success(m)
    else
      match ToInt(a.timeoutInMinutes)
      case Success(n) => Success(m["TimeoutInMinutes" := Int(n)])
      case Failure(e) => Failure(e)
  }

  /** What `create_stack` puts in `params`, key by key. */
  lemma CreateStackParamsEntries(a: CreateStackArgs)
    ensures var r := CreateStackParams(a);
      && (r.Failure? <==> Truthy(a.timeoutInMinutes) && ToInt(a.timeoutInMinutes).Failure?)
      && (r.Failure? ==> r.error == InvalidInteger(a.timeoutInMinutes))
    ensures var r := CreateStackParams(a); r.Success? ==>
      && "ContentType" in r.value && r.value["ContentType"] == Str("JSON")
      && "StackName" in r.value && r.value["StackName"] == a.stackName
      && "DisableRollback" in r.value && r.value["DisableRollback"] == Str(EncodeBool(a.disableRollback))
    ensures var r := CreateStackParams(a); r.Success? ==>
      && ("TemplateBody" in r.value <==> Truthy(a.templateBody))
      && ("TemplateBody" in r.value ==> r.value["TemplateBody"] == a.templateBody)
      && ("TemplateURL" in r.value <==> Truthy(a.templateUrl))
      && ("TemplateURL" in r.value ==> r.value["TemplateURL"] == a.templateUrl)
    ensures var r := CreateStackParams(a); r.Success? ==>
      && ("TimeoutInMinutes" in r.value <==> Truthy(a.timeoutInMinutes))
      && ("TimeoutInMinutes" in r.value ==>
            ToInt(a.timeoutInMinutes).Success? &&
            r.value["TimeoutInMinutes"] == Int(ToInt(a.timeoutInMinutes).value))
    ensures var r := CreateStackParams(a); r.Success? ==> forall i :: 1 <= i <= |a.parameters| ==>
      && MemberKey(i, KeyField) in r.value
      && r.value[MemberKey(i, KeyField)] == a.parameters[i - 1].0
      && MemberKey(i, ValueField) in r.value
      && r.value[MemberKey(i, ValueField)] == a.parameters[i - 1].1
    ensures var r := CreateStackParams(a); r.Success? ==> forall j: nat, f: string :: j < 1 || j > |a.parameters| ==>
      MemberKey(j, f) !in r.value
    ensures var r := CreateStackParams(a); r.Success? ==> forall k :: k in r.value ==>
      k in CreateStackKeys || IsMemberKey(k, |a.parameters|)
  {
    CreateStackFixedEntries(a);
    FixedThenMembers(CreateStackFixed(a), a.parameters);
    MemberKeysNotFixed();
  }

  /** `create_stack`: the request it sends (none when `int()` raises) and what it returns or raises. */
  method CreateStack<J, E>(a: CreateStackArgs, makeRequest: Request -> Response, decode: string -> Result<J, E>)
    returns (sent: Option<Request>, r: Result<J, CallError<E>>)
    ensures CreateStackParams(a).Failure? ==>
      sent == None && r == Failure(InvalidArgument(CreateStackParams(a).error))
    ensures CreateStackParams(a).Success? ==>
      && sent == Some(Request("CreateStack", CreateStackParams(a).value, "/", Post))
      && r == Dispatch(makeRequest(sent.value), decode)
  {
    var params: Params :=
      map["ContentType" := Str("JSON"), "StackName" := a.stackName,
          "DisableRollback" := Str(EncodeBool(a.disableRollback))];
    GuardedInsert(params, "TemplateBody", a.templateBody);
    if Truthy(a.templateBody) {
      params := params["TemplateBody" := a.templateBody];
    }
    GuardedInsert(params, "TemplateURL", a.templateUrl);
    if Truthy(a.templateUrl) {
      params := params["TemplateURL" := a.templateUrl];
    }
    // Both template forms given: boto logs a warning; params are unaffected.
    assert params == CreateStackFixed(a);
    ghost var fixed := params;
    if |a.parameters| > 0 {
      for i := 0 to |a.parameters|
        invariant params == fixed + ParameterMembers(a.parameters[..i])
      {
        var (key, value) := a.parameters[i];
        assert a.parameters[..i + 1][..i] == a.parameters[..i];
        UnionUpdate(fixed, ParameterMembers(a.parameters[..i]), MemberKey(i + 1, KeyField), key);
        UnionUpdate(fixed, ParameterMembers(a.parameters[..i])[MemberKey(i + 1, KeyField) := key],
                    MemberKey(i + 1, ValueField), value);
        params := params[MemberKey(i + 1, KeyField) := key];
        params := params[MemberKey(i + 1, ValueField) := value];
      }
      assert a.parameters[..|a.parameters|] == a.parameters;
    } else {
      assert fixed + ParameterMembers(a.parameters) == fixed;
    }
    if Truthy(a.timeoutInMinutes) {
      var n := ToInt(a.timeoutInMinutes);
      if n.Failure? {
        return None, Failure(InvalidArgument(n.error));
      }
      params := params["TimeoutInMinutes" := Int(n.value)];
    }
    sent := Some(Request("CreateStack", params, "/", Post));
    r := Dispatch(makeRequest(sent.value), decode);
  }

  lemma CreateStackAlwaysSize(a: CreateStackArgs)
    ensures |CreateStackAlways(a)| == 3
    ensures CreateStackAlways(a).Keys == {"ContentType", "StackName", "DisableRollback"}
  {
  }

  /** A three-key dict and two optional keys it does not hold. */
  lemma ThreeWithOptionals(always: Params, k1: string, v1: Value, k2: string, v2: Value)
    requires |always| == 3 && k1 !in always && k2 !in always && k1 != k2
    ensures |always + Optional(k1, v1) + Optional(k2, v2)| ==
      3 + (if Truthy(v1) then 1 else 0) + (if Truthy(v2) then 1 else 0)
  {
    OptionalSize(k1, v1);
    OptionalSize(k2, v2);
    DisjointUnionSize(always, Optional(k1, v1));
    DisjointUnionSize(always + Optional(k1, v1), Optional(k2, v2));
  }

  /** Three always-present keys and one per truthy template form. */
  lemma CreateStackFixedSize(a: CreateStackArgs)
    ensures |CreateStackFixed(a)| ==
      3 + (if Truthy(a.templateBody) then 1 else 0) + (if Truthy(a.templateUrl) then 1 else 0)
  {
    CreateStackAlwaysSize(a);
    ThreeWithOptionals(CreateStackAlways(a), "TemplateBody", a.templateBody, "TemplateURL", a.templateUrl);
  }

  /**
    The dict `create_stack` sends has exactly three always-present keys, one
    per truthy template form, two per stack parameter and one for a truthy
    timeout: no entry ever overwrites another.
   */
  lemma CreateStackParamsSize(a: CreateStackArgs)
    requires CreateStackParams(a).Success?
    ensures |CreateStackParams(a).value| ==
      3 + (if Truthy(a.templateBody) then 1 else 0) + (if Truthy(a.templateUrl) then 1 else 0)
        + 2 * |a.parameters| + (if Truthy(a.timeoutInMinutes) then 1 else 0)
  {
    var fixed := CreateStackFixed(a);
    var members := ParameterMembers(a.parameters);
    CreateStackFixedSize(a);
    CreateStackFixedEntries(a);
    ParameterMembersCount(a.parameters);
    FixedKeysAreNotMembers(a.parameters);
    DisjointUnionSize(fixed, members);
    var m := fixed + members;
    assert "TimeoutInMinutes" !in m;
  }

  /**
    Giving both template forms sends both keys and changes nothing else:
    the dict is the one for the body alone plus `TemplateURL`. boto
    only logs a warning in this case.
   */
  lemma BothTemplatesSent(a: CreateStackArgs)
    requires Truthy(a.templateBody) && Truthy(a.templateUrl)
    ensures CreateStackParams(a).Success? == CreateStackParams(a.(templateUrl := Null)).Success?
    ensures CreateStackParams(a).Success? ==>
      CreateStackParams(a).value == CreateStackParams(a.(templateUrl := Null)).value["TemplateURL" := a.templateUrl]
  {
    var bodyOnly := a.(templateUrl := Null);
    var members := ParameterMembers(a.parameters);
    CreateStackFixedEntries(bodyOnly);
    FixedKeysAreNotMembers(a.parameters);
    assert CreateStackFixed(a) == CreateStackFixed(bodyOnly)["TemplateURL" := a.templateUrl];
    assert "TemplateURL" !in members;
    assert CreateStackFixed(a) + members == (CreateStackFixed(bodyOnly) + members)["TemplateURL" := a.templateUrl];
  }

  /**
    `create_stack("my-stack", template_body="{...}", parameters=[("Key1", "Val1")])`
    sends these six entries and no others.
   */
  lemma CreateStackExample()
    ensures CreateStackParams(CreateStackDefaults(Str("my-stack")).(
              templateBody := Str("{...}"), parameters := [(Str("Key1"), Str("Val1"))]))
         == Success(map[
              "ContentType" := Str("JSON"), "StackName" := Str("my-stack"),
              "DisableRollback" := Str("false"), "TemplateBody" := Str("{...}"),
              "Parameters.member.1.ParameterKey" := Str("Key1"),
              "Parameters.member.1.ParameterValue" := Str("Val1")])
  {
    var a := CreateStackDefaults(Str("my-stack")).(
      templateBody := Str("{...}"), parameters := [(Str("Key1"), Str("Val1"))]);
    var fixed: Params := map[
      "ContentType" := Str("JSON"), "StackName" := Str("my-stack"),
      "DisableRollback" := Str("false"), "TemplateBody" := Str("{...}")];
    var members: Params := map[
      "Parameters.member.1.ParameterKey" := Str("Key1"),
      "Parameters.member.1.ParameterValue" := Str("Val1")];
    FirstMember(Str("Key1"), Str("Val1"));
    assert CreateStackFixed(a) == fixed;
    assert CreateStackParams(a) == Success(fixed + members);
    assert fixed + members == map[
      "ContentType" := Str("JSON"), "StackName" := Str("my-stack"),
      "DisableRollback" := Str("false"), "TemplateBody" := Str("{...}"),
      "Parameters.member.1.ParameterKey" := Str("Key1"),
      "Parameters.member.1.ParameterValue" := Str("Val1")];
  }

  /**
    Truthiness is tested before `int()`: an int 0 timeout is left out, while
    the text "0" is truthy and is sent as the number 0.
   */
  lemma ZeroTimeouts(stackName: Value)
    ensures var r := CreateStackParams(CreateStackDefaults(stackName).(timeoutInMinutes := Int(0)));
      r.Success? && "TimeoutInMinutes" !in r.value
    ensures var r := CreateStackParams(CreateStackDefaults(stackName).(timeoutInMinutes := Str("0")));
      r.Success? && "TimeoutInMinutes" in r.value && r.value["TimeoutInMinutes"] == Int(0)
  {
    assert IntString(0) == "0";
    ToIntRoundTrip(0);
    CreateStackParamsEntries(CreateStackDefaults(stackName).(timeoutInMinutes := Int(0)));
    CreateStackParamsEntries(CreateStackDefaults(stackName).(timeoutInMinutes := Str("0")));
  }

  /** `delete_stack`: both keys are always sent, whatever the name. */
  function DeleteStackParams(stackNameOrId: Value): (m: Params)
    ensures m.Keys == {"ContentType", "StackName"}
    ensures m["ContentType"] == Str("JSON") && m["StackName"] == stackNameOrId
  {
    map["ContentType" := Str("JSON"), "StackName" := stackNameOrId]
  }

  method DeleteStack<J, E>(stackNameOrId: Value, makeRequest: Request -> Response, decode: string -> Result<J, E>)
    returns (sent: Request, r: Result<J, CallError<E>>)
    ensures sent == Request("DeleteStack", DeleteStackParams(stackNameOrId), "/", Get)
    ensures r == Dispatch(makeRequest(sent), decode)
  {
    var params: Params := map["ContentType" := Str("JSON"), "StackName" := stackNameOrId];
    sent := Request("DeleteStack", params, "/", Get);
    r := Dispatch(makeRequest(sent), decode);
  }

  /** `describe_stack_events`: StackName and NextToken only when truthy. */
  function DescribeStackEventsParams(stackNameOrId: Value, nextToken: Value): (m: Params)
    ensures "ContentType" in m && m["ContentType"] == Str("JSON")
    ensures "StackName" in m <==> Truthy(stackNameOrId)
    ensures "StackName" in m ==> m["StackName"] == stackNameOrId
    ensures "NextToken" in m <==> Truthy(nextToken)
    ensures "NextToken" in m ==> m["NextToken"] == nextToken
    ensures m.Keys <= {"ContentType", "StackName", "NextToken"}
  {
    map["ContentType" := Str("JSON")] + Optional("StackName", stackNameOrId) + Optional("NextToken", nextToken)
  }

  method DescribeStackEvents<J, E>(stackNameOrId: Value, nextToken: Value,
                                   makeRequest: Request -> Response, decode: string -> Result<J, E>)
    returns (sent: Request, r: Result<J, CallError<E>>)
    ensures sent == Request("DescribeStackEvents", DescribeStackEventsParams(stackNameOrId, nextToken), "/", Get)
    ensures r == Dispatch(makeRequest(sent), decode)
  {
    var params: Params := map["ContentType" := Str("JSON")];
    GuardedInsert(params, "StackName", stackNameOrId);
    if Truthy(stackNameOrId) {
      params := params["StackName" := stackNameOrId];
    }
    GuardedInsert(params, "NextToken", nextToken);
    if Truthy(nextToken) {
      params := params["NextToken" := nextToken];
    }
    sent := Request("DescribeStackEvents", params, "/", Get);
    r := Dispatch(makeRequest(sent), decode);
  }

  /** `describe_stack_resource`: all three keys are always sent. */
  function DescribeStackResourceParams(stackNameOrId: Value, logicalResourceId: Value): (m: Params)
    ensures m.Keys == {"ContentType", "StackName", "LogicalResourceId"}
    ensures m["ContentType"] == Str("JSON")
    ensures m["StackName"] == stackNameOrId && m["LogicalResourceId"] == logicalResourceId
  {
    map["ContentType" := Str("JSON"), "StackName" := stackNameOrId, "LogicalResourceId" := logicalResourceId]
  }

  method DescribeStackResource<J, E>(stackNameOrId: Value, logicalResourceId: Value,
                                     makeRequest: Request -> Response, decode: string -> Result<J, E>)
    returns (sent: Request, r: Result<J, CallError<E>>)
    ensures sent == Request("DescribeStackResource",
                            DescribeStackResourceParams(stackNameOrId, logicalResourceId), "/", Get)
    ensures r == Dispatch(makeRequest(sent), decode)
  {
    var params: Params :=
      map["ContentType" := Str("JSON"), "StackName" := stackNameOrId, "LogicalResourceId" := logicalResourceId];
    sent := Request("DescribeStackResource", params, "/", Get);
    r := Dispatch(makeRequest(sent), decode);
  }

  /** `describe_stack_resources`: each of the three identifiers only when truthy. */
  function DescribeStackResourcesParams(stackNameOrId: Value, logicalResourceId: Value,
                                        physicalResourceId: Value): (m: Params)
    ensures "ContentType" in m && m["ContentType"] == Str("JSON")
    ensures "StackName" in m <==> Truthy(stackNameOrId)
    ensures "StackName" in m ==> m["StackName"] == stackNameOrId
    ensures "LogicalResourceId" in m <==> Truthy(logicalResourceId)
    ensures "LogicalResourceId" in m ==> m["LogicalResourceId"] == logicalResourceId
    ensures "PhysicalResourceId" in m <==> Truthy(physicalResourceId)
    ensures "PhysicalResourceId" in m ==> m["PhysicalResourceId"] == physicalResourceId
    ensures m.Keys <= {"ContentType", "StackName", "LogicalResourceId", "PhysicalResourceId"}
  {
    map["ContentType" := Str("JSON")]
      + Optional("StackName", stackNameOrId)
      + Optional("LogicalResourceId", logicalResourceId)
      + Optional("PhysicalResourceId", physicalResourceId)
  }

  method DescribeStackResources<J, E>(stackNameOrId: Value, logicalResourceId: Value, physicalResourceId: Value,
                                      makeRequest: Request -> Response, decode: string -> Result<J, E>)
    returns (sent: Request, r: Result<J, CallError<E>>)
    ensures sent == Request("DescribeStackResources",
                            DescribeStackResourcesParams(stackNameOrId, logicalResourceId, physicalResourceId),
                            "/", Get)
    ensures r == Dispatch(makeRequest(sent), decode)
  {
    var params: Params := map["ContentType" := Str("JSON")];
    GuardedInsert(params, "StackName", stackNameOrId);
    if Truthy(stackNameOrId) {
      params := params["StackName" := stackNameOrId];
    }
    GuardedInsert(params, "LogicalResourceId", logicalResourceId);
    if Truthy(logicalResourceId) {
      params := params["LogicalResourceId" := logicalResourceId];
    }
    GuardedInsert(params, "PhysicalResourceId", physicalResourceId);
    if Truthy(physicalResourceId) {
      params := params["PhysicalResourceId" := physicalResourceId];
    }
    sent := Request("DescribeStackResources", params, "/", Get);
    r := Dispatch(makeRequest(sent), decode);
  }

  /** `describe_stacks` sends no ContentType: its params are empty or hold StackName alone. */
  function DescribeStacksParams(stackNameOrId: Value): (m: Params)
    ensures "ContentType" !in m
    ensures m == map[] <==> !Truthy(stackNameOrId)
    ensures m.Keys <= {"StackName"}
    ensures "StackName" in m ==> m["StackName"] == stackNameOrId
  {
    Optional("StackName", stackNameOrId)
  }

  /** The arguments of `get_list(action, params, [(marker, Stack)])`; the XML it parses is not modelled. */
  datatype ListCall = ListCall(action: string, params: Params, marker: string)

  method DescribeStacks(stackNameOrId: Value) returns (call: ListCall)
    ensures call == ListCall("DescribeStacks", DescribeStacksParams(stackNameOrId), "member")
  {
    var params: Params := map[];
    GuardedInsert(params, "StackName", stackNameOrId);
    if Truthy(stackNameOrId) {
      params := params["StackName" := stackNameOrId];
    }
    call := ListCall("DescribeStacks", params, "member");
  }

  /** `get_template`: both keys are always sent, whatever the name. */
  function GetTemplateParams(stackNameOrId: Value): (m: Params)
    ensures m.Keys == {"ContentType", "StackName"}
    ensures m["ContentType"] == Str("JSON") && m["StackName"] == stackNameOrId
  {
    map["ContentType" := Str("JSON"), "StackName" := stackNameOrId]
  }

  method GetTemplate<J, E>(stackNameOrId: Value, makeRequest: Request -> Response, decode: string -> Result<J, E>)
    returns (sent: Request, r: Result<J, CallError<E>>)
    ensures sent == Request("GetTemplate", GetTemplateParams(stackNameOrId), "/", Get)
    ensures r == Dispatch(makeRequest(sent), decode)
  {
    var params: Params := map["ContentType" := Str("JSON"), "StackName" := stackNameOrId];
    sent := Request("GetTemplate", params, "/", Get);
    r := Dispatch(makeRequest(sent), decode);
  }

  /** `list_stack_resources`: StackName always, NextToken only when truthy. */
  function ListStackResourcesParams(stackNameOrId: Value, nextToken: Value): (m: Params)
    ensures "ContentType" in m && m["ContentType"] == Str("JSON")
    ensures "StackName" in m && m["StackName"] == stackNameOrId
    ensures "NextToken" in m <==> Truthy(nextToken)
    ensures "NextToken" in m ==> m["NextToken"] == nextToken
    ensures m.Keys <= {"ContentType", "StackName", "NextToken"}
  {
    map["ContentType" := Str("JSON"), "StackName" := stackNameOrId] + Optional("NextToken", nextToken)
  }

  method ListStackResources<J, E>(stackNameOrId: Value, nextToken: Value,
                                  makeRequest: Request -> Response, decode: string -> Result<J, E>)
    returns (sent: Request, r: Result<J, CallError<E>>)
    ensures sent == Request("ListStackResources", ListStackResourcesParams(stackNameOrId, nextToken), "/", Get)
    ensures r == Dispatch(makeRequest(sent), decode)
  {
    var params: Params := map["ContentType" := Str("JSON"), "StackName" := stackNameOrId];
    GuardedInsert(params, "NextToken", nextToken);
    if Truthy(nextToken) {
      params := params["NextToken" := nextToken];
    }
    sent := Request("ListStackResources", params, "/", Get);
    r := Dispatch(makeRequest(sent), decode);
  }

  /** `list_stacks` without status filters: NextToken only when truthy. */
  function ListStacksParams(nextToken: Value): (m: Params)
    ensures "ContentType" in m && m["ContentType"] == Str("JSON")
    ensures "NextToken" in m <==> Truthy(nextToken)
    ensures "NextToken" in m ==> m["NextToken"] == nextToken
    ensures m.Keys <= {"ContentType", "NextToken"}
  {
    map["ContentType" := Str("JSON")] + Optional("NextToken", nextToken)
  }

  method ListStacks<J, E>(nextToken: Value, makeRequest: Request -> Response, decode: string -> Result<J, E>)
    returns (sent: Request, r: Result<J, CallError<E>>)
    ensures sent == Request("ListStacks", ListStacksParams(nextToken), "/", Get)
    ensures r == Dispatch(makeRequest(sent), decode)
  {
    var params: Params := map["ContentType" := Str("JSON")];
    GuardedInsert(params, "NextToken", nextToken);
    if Truthy(nextToken) {
      params := params["NextToken" := nextToken];
    }
    sent := Request("ListStacks", params, "/", Get);
    r := Dispatch(makeRequest(sent), decode);
  }

  /** `validate_template`: the URL goes under `TemplateUrl`, not the `TemplateURL` of `create_stack`. */
  function ValidateTemplateParams(templateBody: Value, templateUrl: Value): (m: Params)
    ensures "ContentType" in m && m["ContentType"] == Str("JSON")
    ensures "TemplateBody" in m <==> Truthy(templateBody)
    ensures "TemplateBody" in m ==> m["TemplateBody"] == templateBody
    ensures "TemplateUrl" in m <==> Truthy(templateUrl)
    ensures "TemplateUrl" in m ==> m["TemplateUrl"] == templateUrl
    ensures "TemplateURL" !in m
    ensures m.Keys <= {"ContentType", "TemplateBody", "TemplateUrl"}
  {
    map["ContentType" := Str("JSON")] + Optional("TemplateBody", templateBody) + Optional("TemplateUrl", templateUrl)
  }

  method ValidateTemplate<J, E>(templateBody: Value, templateUrl: Value,
                                makeRequest: Request -> Response, decode: string -> Result<J, E>)
    returns (sent: Request, r: Result<J, CallError<E>>)
    ensures sent == Request("ValidateTemplate", ValidateTemplateParams(templateBody, templateUrl), "/", Get)
    ensures r == Dispatch(makeRequest(sent), decode)
  {
    var params: Params := map["ContentType" := Str("JSON")];
    GuardedInsert(params, "TemplateBody", templateBody);
    if Truthy(templateBody) {
      params := params["TemplateBody" := templateBody];
    }
    GuardedInsert(params, "TemplateUrl", templateUrl);
    if Truthy(templateUrl) {
      params := params["TemplateUrl" := templateUrl];
    }
    // Both template forms given: boto logs a warning; params are unaffected.
    sent := Request("ValidateTemplate", params, "/", Get);
    r := Dispatch(makeRequest(sent), decode);
  }
}
