/**
 * The order, task and chart schemas as predicates, each with the list of issues
 * a parse reports (one per broken field rule, in field declaration order), and
 * the two validation helpers that turn those issues into a thrown message or a
 * list of strings.
 */
module Schemas {
  import opened Wrappers
  import opened Domain
  import opened Errors
  import Text
  import Seqs

  /** One schema violation: the path of the offending field and its message. */
  datatype Issue = Issue(path: seq<string>, message: string)

  /** Fixed texts for the rules the schemas state without a message of their own. */
  const TooShort: string := "String must contain at least 1 character(s)"
  const InvalidEnum: string := "Invalid enum value"
  const NotPositive: string := "Number must be greater than 0"
  const InvalidEmail: string := "Invalid email"

  /** No issue when `ok`, otherwise one issue on `field`. */
  function Check(ok: bool, field: string, message: string): (r: seq<Issue>)
    ensures ok <==> r == []
    ensures !ok ==> r == [Issue([field], message)]
  {
    if ok then [] else [Issue([field], message)]
  }

  // ---------------------------------------------------------------- orders

  /** An order: non-empty id, client name and project type, a known status, a positive amount. */
  predicate ValidOrder(o: Order)
  {
    |o.id| >= 1 && |o.clientName| >= 1 && |o.projectType| >= 1
    && IsOrderStatus(o.status) && o.amount > 0.0
  }

  function OrderIssues(o: Order): (r: seq<Issue>)
    ensures r == [] <==> ValidOrder(o)
    ensures |o.id| == 0 ==> r[0] == Issue(["id"], "Order ID is required")
    ensures o.amount <= 0.0 ==> r[|r| - 1] == Issue(["amount"], "Amount must be positive")
  {
    Check(|o.id| >= 1, "id", "Order ID is required")
    + Check(|o.clientName| >= 1, "clientName", "Client name is required")
    + Check(|o.projectType| >= 1, "projectType", "Project type is required")
    + Check(IsOrderStatus(o.status), "status", InvalidEnum)
    + Check(o.amount > 0.0, "amount", "Amount must be positive")
  }

  /** An order detail: a valid order whose client email is well formed. */
  predicate ValidOrderDetail(d: OrderDetail, fmt: Formats)
  {
    ValidOrder(d.Summary()) && fmt.isEmail(d.clientEmail)
  }

  function OrderDetailIssues(d: OrderDetail, fmt: Formats): (r: seq<Issue>)
    ensures r == [] <==> ValidOrderDetail(d, fmt)
    ensures OrderIssues(d.Summary()) <= r
  {
    OrderIssues(d.Summary())
    + Check(fmt.isEmail(d.clientEmail), "clientEmail", "Invalid email address")
  }

  /** A create-order input: the order rules without an id, a valid email and a non-empty description. */
  predicate ValidCreateOrder(c: CreateOrderInput, fmt: Formats)
  {
    |c.clientName| >= 1 && |c.projectType| >= 1 && IsOrderStatus(c.status) && c.amount > 0.0
    && fmt.isEmail(c.clientEmail) && |c.description| >= 1
  }

  function CreateOrderIssues(c: CreateOrderInput, fmt: Formats): (r: seq<Issue>)
    ensures r == [] <==> ValidCreateOrder(c, fmt)
  {
    Check(|c.clientName| >= 1, "clientName", "Client name is required")
    + Check(|c.projectType| >= 1, "projectType", "Project type is required")
    + Check(IsOrderStatus(c.status), "status", InvalidEnum)
    + Check(c.amount > 0.0, "amount", "Amount must be positive")
    + Check(fmt.isEmail(c.clientEmail), "clientEmail", "Invalid email address")
    + Check(|c.description| >= 1, "description", "Description is required")
  }

  /** Parsing a create-order input fills in missing notes with "" and changes nothing else. */
  function ParseCreateOrder(c: CreateOrderInput, fmt: Formats): (r: Result<CreateOrderInput, seq<Issue>>)
    ensures r.Ok? <==> ValidCreateOrder(c, fmt)
    ensures r.Ok? ==> r.value.notes.Some? && r.value == c.(notes := r.value.notes)
    ensures r.Ok? && c.notes.None? ==> r.value.notes == Some("")
    ensures r.Ok? && c.notes.Some? ==> r.value == c
    ensures r.Err? ==> r.error == CreateOrderIssues(c, fmt) && r.error != []
  {
    var issues := CreateOrderIssues(c, fmt);
    if issues == [] then Ok(c.(notes := Some(c.notes.GetOr("")))) else Err(issues)
  }

  /** A present field meets its rule. */
  predicate Holds<T>(v: Option<T>, ok: T -> bool)
  {
    v.None? || ok(v.value)
  }

  /** An update-order input: a non-empty id; every present field meets its rule (descriptions may be empty). */
  predicate ValidUpdateOrder(u: UpdateOrderInput, fmt: Formats)
  {
    |u.id| >= 1
    && Holds(u.clientName, (s: string) => |s| >= 1)
    && Holds(u.clientEmail, fmt.isEmail)
    && Holds(u.projectType, (s: string) => |s| >= 1)
    && Holds(u.status, IsOrderStatus)
    && Holds(u.amount, (a: real) => a > 0.0)
  }

  function UpdateOrderIssues(u: UpdateOrderInput, fmt: Formats): (r: seq<Issue>)
    ensures r == [] <==> ValidUpdateOrder(u, fmt)
  {
    Check(|u.id| >= 1, "id", TooShort)
    + Check(Holds(u.clientName, (s: string) => |s| >= 1), "clientName", TooShort)
    + Check(Holds(u.clientEmail, fmt.isEmail), "clientEmail", InvalidEmail)
    + Check(Holds(u.projectType, (s: string) => |s| >= 1), "projectType", TooShort)
    + Check(Holds(u.status, IsOrderStatus), "status", InvalidEnum)
    + Check(Holds(u.amount, (a: real) => a > 0.0), "amount", NotPositive)
  }

  /** Leaving out a field never makes a valid update invalid: only present fields are checked. */
  lemma {:induction false} UpdateOrderFieldsOptional(u: UpdateOrderInput, fmt: Formats)
    requires ValidUpdateOrder(u, fmt)
    ensures ValidUpdateOrder(UpdateOrderInput(u.id, None, None, None, None, None, None, None, None), fmt)
    ensures ValidUpdateOrder(u.(description := Some("")), fmt)
  {
  }

  // ---------------------------------------------------------------- tasks

  /** A task: non-empty text and a known task status (the id may be a number or a string). */
  predicate ValidTask(t: Task)
  {
    |t.text| >= 1 && IsTaskStatus(t.status)
  }

  function TaskIssues(t: Task): (r: seq<Issue>)
    ensures r == [] <==> ValidTask(t)
  {
    Check(|t.text| >= 1, "text", "Task text is required")
    + Check(IsTaskStatus(t.status), "status", InvalidEnum)
  }

  /** A create-task input: the task rules plus a non-empty order id. */
  predicate ValidCreateTask(c: CreateTaskInput)
  {
    |c.text| >= 1 && IsTaskStatus(c.status) && |c.orderId| >= 1
  }

  function CreateTaskIssues(c: CreateTaskInput): (r: seq<Issue>)
    ensures r == [] <==> ValidCreateTask(c)
  {
    Check(|c.text| >= 1, "text", "Task text is required")
    + Check(IsTaskStatus(c.status), "status", InvalidEnum)
    + Check(|c.orderId| >= 1, "orderId", "Order ID is required")
  }

  /** An update-task input: present text is non-empty, a present status is known. */
  predicate ValidUpdateTask(u: UpdateTaskInput)
  {
    Holds(u.text, (s: string) => |s| >= 1) && Holds(u.status, IsTaskStatus)
  }

  function UpdateTaskIssues(u: UpdateTaskInput): (r: seq<Issue>)
    ensures r == [] <==> ValidUpdateTask(u)
  {
    Check(Holds(u.text, (s: string) => |s| >= 1), "text", TooShort)
    + Check(Holds(u.status, IsTaskStatus), "status", InvalidEnum)
  }

  // ---------------------------------------------------------------- helpers

  /** `"<path joined by .>: <message>"`. */
  function FormatIssue(i: Issue): string
  {
    Text.Join(i.path, ".") + ": " + i.message
  }

  function FormatIssues(issues: seq<Issue>): (r: seq<string>)
    ensures |r| == |issues|
    ensures forall k :: 0 <= k < |issues| ==> r[k] == FormatIssue(issues[k])
  {
    Seqs.Map(issues, FormatIssue)
  }

  /** The text thrown by a failed validation. */
  function ValidationMessage(context: string, issues: seq<Issue>): string
  {
    "Validation failed" + (if context != "" then " for " + context else "") + ": "
    + Text.Join(FormatIssues(issues), ", ")
  }

  /**
   * `validateData`: the parsed value when the schema reports no issue; otherwise
   * a plain error (not a service error) whose message lists every issue.
   */
  function ValidateData<T>(parsed: T, issues: seq<Issue>, context: string): (r: Result<T, Thrown>)
    ensures r.Ok? <==> issues == []
    ensures r.Ok? ==> r.value == parsed
    ensures r.Err? ==> r.error.cls == PlainError && r.error.code == None
    ensures r.Err? ==> r.error.message == ValidationMessage(context, issues)
  {
    if issues == [] then Ok(parsed)
    else Err(Thrown(PlainError, ValidationMessage(context, issues), None))
  }

  /**
   * `xs.map(x => validateData(schema, x, ctx))`: all of them when every one
   * passes, otherwise the validation error of the first one that does not.
   */
  function ValidateEach<T>(xs: seq<T>, issues: T -> seq<Issue>, context: string): (r: Result<seq<T>, Thrown>)
    ensures r.Ok? <==> forall i :: 0 <= i < |xs| ==> issues(xs[i]) == []
    ensures r.Ok? ==> r.value == xs
    ensures r.Err? ==>
      exists i :: 0 <= i < |xs| && issues(xs[i]) != []
                  && (forall j :: 0 <= j < i ==> issues(xs[j]) == [])
                  && r.error == Thrown(PlainError, ValidationMessage(context, issues(xs[i])), None)
  {
    if xs == [] then Ok([])
    else if issues(xs[0]) != [] then Err(ValidateData(xs[0], issues(xs[0]), context).error)
    else
      var rest := ValidateEach(xs[1..], issues, context);
      assert forall i :: 0 <= i < |xs| - 1 ==> xs[1..][i] == xs[i + 1];
      if rest.Err? then Err(rest.error)
      else
        assert xs == [xs[0]] + xs[1..];
        Ok([xs[0]] + rest.value)
  }

  /** The result of `safeValidateData`: never thrown. */
  datatype SafeResult<T> = Success(data: T) | Failure(errors: seq<string>)

  function SafeValidateData<T>(parsed: T, issues: seq<Issue>): (r: SafeResult<T>)
    ensures r.Success? <==> issues == []
    ensures r.Success? ==> r.data == parsed
    ensures r.Failure? ==> |r.errors| == |issues|
    ensures r.Failure? ==> forall k :: 0 <= k < |issues| ==> r.errors[k] == FormatIssue(issues[k])
    ensures r.Failure? ==> r.errors == FormatIssues(issues)
  {
    if issues == [] then Success(parsed) else Failure(FormatIssues(issues))
  }

  /**
   * The two helpers agree: they succeed on the same inputs, and the thrown
   * message is the context header followed by the safe variant's error list.
   */
  lemma SafeAgreesWithValidate<T>(parsed: T, issues: seq<Issue>, context: string)
    ensures ValidateData(parsed, issues, context).Ok? <==> SafeValidateData(parsed, issues).Success?
    ensures SafeValidateData(parsed, issues).Failure? ==>
      ValidateData(parsed, issues, context).error.message
        == "Validation failed" + (if context != "" then " for " + context else "") + ": "
           + Text.Join(SafeValidateData(parsed, issues).errors, ", ")
  {
  }

  /** A single issue on a top-level field reads "Validation failed for <ctx>: <field>: <message>". */
  lemma SingleIssueMessage<T>(parsed: T, field: string, message: string, context: string)
    requires context != ""
    ensures ValidateData(parsed, [Issue([field], message)], context).error.message
      == "Validation failed for " + context + ": " + field + ": " + message
  {
    assert FormatIssues([Issue([field], message)]) == [field + ": " + message];
  }

  /** A task with empty text fails with the task-text message first. */
  lemma EmptyTaskTextMessage(t: Task)
    requires t.text == [] && IsTaskStatus(t.status)
    ensures ValidateData(t, TaskIssues(t), "task").error.message
      == "Validation failed for " + "task" + ": " + "text" + ": " + "Task text is required"
  {
    assert TaskIssues(t) == [Issue(["text"], "Task text is required")];
    SingleIssueMessage(t, "text", "Task text is required", "task");
  }
}
