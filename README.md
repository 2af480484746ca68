# CloudFormation request construction and response dispatch

A Dafny model of the request side of boto's `CloudFormationConnection`, the
client for the AWS CloudFormation Query API. It models:

- `encode_bool`.
- For each of the ten operations, the `params` dict it builds: the keys that
  are always sent, the keys sent only for a truthy argument, and the
  1-indexed `Parameters.member.<i>.ParameterKey` / `ParameterValue` series of
  `create_stack`.
- The request each operation hands to `make_request` (action, params, path `/`
  and verb).
- The shared dispatch of the reply. Status 200 returns the decoded body. Any
  other status raises `ResponseError(status, reason, body)`.

Python arguments are `Values.Value` (None, bool, int or str), and
`Values.Truthy` is Python truthiness. So `None`, `False`, `0` and `""` all
leave an optional key out. `int()` is `Values.ToInt`. It can fail, and in the model
that failure is the only error raised while the parameters are built.

The transport (`make_request`) and the JSON decoder (`json.loads`) are
parameters of the operation methods: `makeRequest: Request -> Response` and
`decode: string -> Result<J, E>`. Each operation is therefore a function of
its arguments and of what those two collaborators answer.

Modules, leaves first:

- `wrappers.dfy`: `Option` and `Result`.
- `decimal.dfy`: the `%d` formatting of member indices, and the string case
  of `int()`. Each comes with its round trip.
- `values.dfy`: argument values, truthiness and `int()`.
- `query_params.dfy`: the params dict, the guarded insert, and the member key
  series with its exactness lemmas.
- `responses.dfy`: request, response, error type and `Dispatch`.
- `cloudformation.dfy`: `EncodeBool`, one params function and one method per
  operation, and the lemmas about `create_stack`.

Every operation has two parts:

- A method that mirrors the operation's own sequence of guarded
  `params[...] = ...` inserts. For `create_stack` this includes the
  `enumerate(parameters)` loop, whose invariant ties the dict to the member
  series written so far.
- A function for the dict. Its contract states which keys appear. For
  `create_stack`, the lemmas `CreateStackFixedEntries` and
  `CreateStackParamsEntries` state it instead.

The method is proved to send exactly what the function describes.

Notes on behaviour that the code shows and the model keeps:

- `validate_template` sends the URL under `TemplateUrl`, but `create_stack`
  sends it under `TemplateURL`.
- `describe_stacks` sends no `ContentType`. Every other operation always
  sends `ContentType=JSON`.
- Required arguments such as `StackName` in `delete_stack` are sent as given,
  even when falsy.
- Truthiness is tested before `int()`. So an int `0` timeout is left out, but
  the text `"0"` is sent as the number 0 (`ZeroTimeouts`).
- A 200 reply whose body does not decode fails with the decoder's error. That
  error is not a `ResponseError`.

## Model

| member | source | states |
|---|---|---|
| `CloudFormation.EncodeBool` | boto/cloudformation/connection.py:60-62 | Gives "true" exactly when the argument is truthy and "false" exactly when it is not. It never gives any other string. |
| `CloudFormation.CreateStackFixedEntries` | boto/cloudformation/connection.py:67-75 | Before the loop, the dict holds `ContentType=JSON`, `StackName` and `DisableRollback=encode_bool(...)`. It holds `TemplateBody` and `TemplateURL` iff their arguments are truthy. It holds no other key. |
| `CloudFormation.CreateStackParamsEntries` | boto/cloudformation/connection.py:64-83 | The contract of `CreateStackParams`, the dict that lines 67-83 build. It fails iff the timeout is truthy and `int()` rejects it, and the error carries that value. Otherwise it holds the three fixed entries, each template key iff its argument is truthy, and `TimeoutInMinutes=int(timeout)` iff the timeout is truthy. For each i in 1..n, member i holds the key and value of pair i-1. There is no member outside 1..n and no other key. |
| `CloudFormation.CreateStack` | boto/cloudformation/connection.py:64-92 | If `int()` fails, no request is sent and the call raises that error. Otherwise it POSTs `CreateStack` to `/` with exactly `CreateStackParams`, and returns the dispatch of the reply. It is proved through the loop invariant, which covers the members written so far. |
| `CloudFormation.CreateStackParamsSize` | boto/cloudformation/connection.py:67-83 | The dict has 3 keys, plus 1 per truthy template form, plus 2n for n parameters, plus 1 for a truthy timeout. No insert overwrites another. |
| `CloudFormation.BothTemplatesSent` | boto/cloudformation/connection.py:69-75 | When both template forms are given, both keys are sent. The dict is the body-only dict plus `TemplateURL`, with nothing else changed. |
| `CloudFormation.CreateStackExample` | boto/cloudformation/connection.py:64-79 | `create_stack("my-stack", template_body="{...}", parameters=[("Key1","Val1")])` sends exactly these six entries: ContentType, StackName, `DisableRollback=false`, TemplateBody, and member 1's key and value. |
| `CloudFormation.ZeroTimeouts` | boto/cloudformation/connection.py:82-83 | An int 0 timeout is left out. The text "0" is sent as `TimeoutInMinutes=0`. |
| `QueryParams.ParameterMembersExact` | boto/cloudformation/connection.py:76-79 | The contract of `ParameterMembers`, the entries that the `enumerate(parameters)` loop writes. For n pairs, the series has exactly 2n keys. Member i, for i in 1..n, holds pair i-1's key and value, so input order is kept. No index outside 1..n appears, and an empty list adds nothing. |
| `QueryParams.MemberKeyInjective` | boto/cloudformation/connection.py:78-79 | Two member keys are equal only if their index and their field are equal. |
| `Decimal.DecimalStringRoundTrip` | boto/cloudformation/connection.py:78-79 | Reading back the digits of `'%d' % n` gives n. |
| `Decimal.ParseIntRoundTrip` | boto/cloudformation/connection.py:83 | The round trip of `ParseInt`, the string case of `int()`: `int(str(n)) == n` for every integer n, negative ones included. |
| `Values.Truthy` | boto/cloudformation/connection.py:61 | `bool(v)`, the test behind every `if v:`: false exactly for None, False, 0 and the empty string. |
| `Values.ToInt` | boto/cloudformation/connection.py:83 | `int(v)`. None is rejected, `int(True) == 1` and `int(False) == 0`, an int is returned unchanged, and a text is accepted exactly when it is a signed run of digits after stripping whitespace, with the value `ParseInt` gives. A failure's error carries the rejected value. |
| `Decimal.ParseInt` | boto/cloudformation/connection.py:83 | `int()` on text. It accepts a text exactly when, with its surrounding whitespace stripped, the text is one or more ASCII digits, optionally after a single `+` or `-`. It rejects every other text. On such a text with nothing around it, the value is the `ParseNumber` reading. `ParseIgnoresSpace` extends this to padded text. |
| `Decimal.ParseNumber` | boto/cloudformation/connection.py:83 | The sign-and-digits part of `int()`, once whitespace is stripped: it succeeds exactly on one or more ASCII digits, optionally after a single `+` or `-`, and gives their value with the sign applied. |
| `Decimal.ParseUnpadded` | boto/cloudformation/connection.py:83 | On a text with no whitespace at its ends, `int()` is exactly the sign-and-digits reading. |
| `Decimal.ParseIgnoresSpace` | boto/cloudformation/connection.py:83 | Any runs of ASCII whitespace before and after a text with no whitespace at its ends leave what `int()` reads unchanged. This holds for runs of any length, on either side, and for empty runs. |
| `Decimal.StripLeadingCut` | boto/cloudformation/connection.py:83 | Stripping leading whitespace keeps a suffix of the text and cuts off only whitespace. |
| `Decimal.StripTrailingCut` | boto/cloudformation/connection.py:83 | Stripping trailing whitespace keeps a prefix of the text and cuts off only whitespace. |
| `Decimal.StripLeadingSpaces` | boto/cloudformation/connection.py:83 | Stripping a whitespace run in front of a text that starts with a non-space leaves exactly that text. |
| `Decimal.StripTrailingSpaces` | boto/cloudformation/connection.py:83 | Stripping a whitespace run after a text that ends with a non-space leaves exactly that text. |
| `Decimal.ParseIntPaddedPlus` | boto/cloudformation/connection.py:83 | `int(p + "+" + str(n) + q) == n` for every n >= 0 and any whitespace runs p and q. |
| `Decimal.ParseIntRejectsLetter` | boto/cloudformation/connection.py:83 | `int("1a2")` is a ValueError. |
| `Decimal.ParseIntRejectsNoDigits` | boto/cloudformation/connection.py:83 | `int("")`, `int("-")` and `int(" ")` are ValueErrors. |
| `Values.ToIntOnText` | boto/cloudformation/connection.py:82-83 | A timeout given as the text "1a2" is an encoding error that carries that text, while a whitespace-padded `+n` is read as n. |
| `Decimal.DecimalString` | boto/cloudformation/connection.py:78-79 | The `%d` text of a member index: non-empty ASCII digits, with no leading zero unless the index is 0. |
| `QueryParams.MemberKey` | boto/cloudformation/connection.py:78-79 | `'Parameters.member.%d.<field>' % i`: the key starts with `Parameters.member.`, ends with the field name, and is 19 characters longer than the index digits and the field together. |
| `QueryParams.Optional` | boto/cloudformation/connection.py:69-72 | The guarded insert `if v: params[k] = v`: the key is present iff v is truthy, then with value v, and no other key is added. |
| `Values.ToIntRoundTrip` | boto/cloudformation/connection.py:83 | `int()` returns an int unchanged and reads back its decimal text. |
| `Responses.Dispatch` | boto/cloudformation/connection.py:85-92 | Status 200 gives the decoded body, or the decoder's own error, and never a ResponseError. Any other status gives a ResponseError whose (status, reason, body) equals the reply. No status other than 200 is treated differently from the rest. |
| `CloudFormation.DeleteStackParams` | boto/cloudformation/connection.py:94-95 | The keys are exactly ContentType and StackName, and StackName is sent as given. |
| `CloudFormation.DeleteStack` | boto/cloudformation/connection.py:94-103 | Sends `DeleteStack` with `DeleteStackParams` via GET on `/`, and returns the dispatch of the reply. |
| `CloudFormation.DescribeStackEventsParams` | boto/cloudformation/connection.py:105-110 | ContentType is always sent. StackName and NextToken are sent iff their arguments are truthy, with those values. There is no other key. |
| `CloudFormation.DescribeStackEvents` | boto/cloudformation/connection.py:105-120 | Sends `DescribeStackEvents` with those params via GET on `/`, and returns the dispatch of the reply. |
| `CloudFormation.DescribeStackResourceParams` | boto/cloudformation/connection.py:122-124 | The keys are exactly ContentType, StackName and LogicalResourceId, with the given values. |
| `CloudFormation.DescribeStackResource` | boto/cloudformation/connection.py:122-132 | Sends `DescribeStackResource` with those params via GET on `/`, and returns the dispatch of the reply. |
| `CloudFormation.DescribeStackResourcesParams` | boto/cloudformation/connection.py:134-143 | ContentType is always sent. StackName, LogicalResourceId and PhysicalResourceId are each sent iff truthy. There is no other key. |
| `CloudFormation.DescribeStackResources` | boto/cloudformation/connection.py:134-152 | Sends `DescribeStackResources` with those params via GET on `/`, and returns the dispatch of the reply. |
| `CloudFormation.DescribeStacksParams` | boto/cloudformation/connection.py:154-157 | ContentType is never sent. The dict is empty iff the name is falsy, and otherwise it is `{StackName}`. |
| `CloudFormation.DescribeStacks` | boto/cloudformation/connection.py:154-158 | Hands `DescribeStacks`, those params and the `member` marker to `get_list`. |
| `CloudFormation.GetTemplateParams` | boto/cloudformation/connection.py:160-161 | The keys are exactly ContentType and StackName, and StackName is sent as given. |
| `CloudFormation.GetTemplate` | boto/cloudformation/connection.py:160-169 | Sends `GetTemplate` with those params via GET on `/`, and returns the dispatch of the reply. |
| `CloudFormation.ListStackResourcesParams` | boto/cloudformation/connection.py:171-174 | ContentType and StackName are always sent. NextToken is sent iff truthy. There is no other key. |
| `CloudFormation.ListStackResources` | boto/cloudformation/connection.py:171-182 | Sends `ListStackResources` with those params via GET on `/`, and returns the dispatch of the reply. |
| `CloudFormation.ListStacksParams` | boto/cloudformation/connection.py:184-187 | ContentType is always sent. NextToken is sent iff truthy. There is no other key. |
| `CloudFormation.ListStacks` | boto/cloudformation/connection.py:184-199 | Sends `ListStacks` with those params via GET on `/`, and returns the dispatch of the reply. |
| `CloudFormation.ValidateTemplateParams` | boto/cloudformation/connection.py:201-209 | ContentType is always sent. TemplateBody is sent iff truthy. The URL goes under `TemplateUrl` iff truthy, and `TemplateURL` never appears. There is no other key. |
| `CloudFormation.ValidateTemplate` | boto/cloudformation/connection.py:201-217 | Sends `ValidateTemplate` with those params via GET on `/`, and returns the dispatch of the reply. |

## Left out

- `notification_arns` of `create_stack` and `stack_status_filters` of `list_stacks`: both are encoded by `build_list_params`, and boto/connection.py, where it is defined, is not part of this model. `CreateStackArgs` has no `notification_arns` and `ListStacks` takes no filters.
- The constructor, region and endpoint setup, `_required_auth_capability`, signing and `make_request`: network transport. The model takes the transport as the parameter `makeRequest`.
- `json.loads`: a foreign library. The model takes the decoder as the parameter `decode`.
- The import guard at boto/cloudformation/connection.py:22-25 binds `json` only when `simplejson` fails to import. When `simplejson` is installed, every `json.loads` call raises NameError on a 200 reply. The model does not capture this; such an installation corresponds only to a `decode` that always fails.
- Exceptions raised by `make_request` or by `response.read()`: `makeRequest` is a total function, so `CallError` has no case for a transport failure, which in boto propagates to the caller.
- The XML parsing that `get_list` does with the `Stack` class for `describe_stacks`, and what it raises on a non-200 reply. boto/cloudformation/stack.py is not part of this model. Only the call handed to `get_list` is modelled.
- The `boto.log` warning (both template forms given) and error lines (non-200 reply): advisory output that never changes control flow.
- `valid_states`: the code never checks an input against it, so the model adds no check either.
- Argument values other than None, bool, int and str. For example, `int()` truncating a float is not modelled, and neither are arbitrary objects. `parameters` is a sequence of pairs, so neither the TypeError of `len(parameters)` on a non-sequence nor the error Python raises when an element does not unpack into two values is modelled.
- `Decimal.ParseInt` follows Python 3's `int()` on ASCII text without underscores: optional ASCII whitespace (codes 9 to 13 and 32), an optional sign directly followed by ASCII digits, and optional ASCII whitespace. Python 3 also accepts underscores between digits, non-ASCII digits and non-ASCII whitespace; the model treats such texts as a ValueError. Python 3.11 and later reject a text of more than 4300 digits by default, which the model accepts. Python 2's `int()` differs in other details of this kind, and those are not modelled either.
- The insertion order of the Python dict: `Params` is a `map`. The response body is a `string`, not bytes.
