/**
 * The create/edit form (frontend/src/pages/TaskForm.jsx): the title check, the payload
 * it sends, the mapping of a loaded task into the form, and the form's state changes.
 */
module TaskForm {
  import opened Common
  import opened TaskRecord
  import TaskController

  /** The form's controlled inputs; every one of them is a string. */
  datatype FormData = FormData(title: string, description: string, status: string, priority: string, dueDate: string)

  /** The `name` of an input, the key `handleChange` writes. */
  datatype Field = TitleField | DescriptionField | StatusField | PriorityField | DueDateField

  /** The object sent to the API: the form, with an empty due date left out. */
  datatype Payload = Payload(title: string, description: string, status: string, priority: string, dueDate: Option<string>)

  /** A task as the API returns it for editing: any field may be missing. */
  datatype LoadedTask = LoadedTask(
    title: Option<string>,
    description: Option<string>,
    status: Option<string>,
    priority: Option<string>,
    dueDate: Option<string>)

  /** What a submit does: refuse with a message, or send a create or an update. */
  datatype Submission =
    | Rejected(message: string)
    | CreateRequest(payload: Payload)
    | UpdateRequest(id: string, payload: Payload)

  /** How the save request ended: saved, or failed with the server's message if there was one. */
  datatype SaveResult = Saved | SaveFailed(message: Option<string>)

  const InitialForm := FormData("", "", "pending", "medium", "")

  /** The characters `String.prototype.trim` removes: ECMAScript WhiteSpace and LineTerminator. */
  predicate IsJsWhitespace(c: char)
  {
    || ('\U{9}' <= c <= '\U{D}')        // tab, line feed, vertical tab, form feed, carriage return
    || c == ' ' || c == '\U{A0}' || c == '\U{1680}'
    || ('\U{2000}' <= c <= '\U{200A}')
    || c == '\U{2028}' || c == '\U{2029}' || c == '\U{202F}' || c == '\U{205F}'
    || c == '\U{3000}' || c == '\U{FEFF}'
  }

  /** Every character of `s` is whitespace (the empty string included). */
  predicate Blank(s: string)
  {
    forall i :: 0 <= i < |s| ==> IsJsWhitespace(s[i])
  }

  /** The first position at or after `i` that does not hold whitespace (`|s|` if there is none). */
  function SkipBlanks(s: string, i: nat): (n: nat)
    requires i <= |s|
    ensures i <= n <= |s|
    ensures forall k :: i <= k < n ==> IsJsWhitespace(s[k])
    ensures n < |s| ==> !IsJsWhitespace(s[n])
    decreases |s| - i
  {
    if i == |s| || !IsJsWhitespace(s[i]) then i else SkipBlanks(s, i + 1)
  }

  /** The end of the text before position `j` once trailing whitespace is dropped (0 if there is only whitespace). */
  function SkipBlanksBack(s: string, j: nat): (n: nat)
    requires j <= |s|
    ensures n <= j
    ensures forall k :: n <= k < j ==> IsJsWhitespace(s[k])
    ensures n > 0 ==> !IsJsWhitespace(s[n - 1])
  {
    if j == 0 || !IsJsWhitespace(s[j - 1]) then j else SkipBlanksBack(s, j - 1)
  }

  /** `s.trim()`: empty exactly when every character of `s` is whitespace. */
  function Trim(s: string): (r: string)
    ensures r == [] <==> Blank(s)
    ensures r != [] ==> !IsJsWhitespace(r[0]) && !IsJsWhitespace(r[|r| - 1])
  {
    var start := SkipBlanks(s, 0);
    var end := SkipBlanksBack(s, |s|);
    if start < end then s[start..end] else []
  }

  /** The title check of `handleSubmit`. */
  function TitleError(title: string): (e: Option<string>)
    ensures e.Some? <==> Blank(title)
    ensures e.Some? ==> e.value == "Please provide a task title"
  {
    if Trim(title) == "" then Some("Please provide a task title") else None
  }

  /** `{ ...formData, dueDate: formData.dueDate || undefined }`. */
  function TaskData(f: FormData): (p: Payload)
    ensures p.dueDate.None? <==> f.dueDate == ""
    ensures p.dueDate.Some? ==> p.dueDate.value == f.dueDate
    ensures p.title == f.title && p.description == f.description
    ensures p.status == f.status && p.priority == f.priority
  {
    Payload(f.title, f.description, f.status, f.priority, if f.dueDate == "" then None else Some(f.dueDate))
  }

  /** `handleSubmit`'s decision: refuse a blank title, else update when an id is present and create otherwise. */
  function PlanSubmit(id: Option<string>, f: FormData): (s: Submission)
    ensures s.Rejected? <==> Blank(f.title)
    ensures s.Rejected? ==> s.message == "Please provide a task title"
    ensures s.UpdateRequest? <==> !Blank(f.title) && Truthy(id)
    ensures s.CreateRequest? <==> !Blank(f.title) && !Truthy(id)
    ensures s.UpdateRequest? ==> s.id == id.value
    ensures !s.Rejected? ==> s.payload == TaskData(f)
  {
    match TitleError(f.title)
    case Some(message) => Rejected(message)
    case None => if Truthy(id) then UpdateRequest(id.value, TaskData(f)) else CreateRequest(TaskData(f))
  }

  /** `dueDate.split('T')[0]`: the text before the first 'T'. */
  function DatePart(s: string): (r: string)
    ensures 'T' !in r
    ensures |r| <= |s| && r == s[..|r|]
    ensures |r| < |s| ==> s[|r|] == 'T'
  {
    if s == [] then []
    else if s[0] == 'T' then []
    else [s[0]] + DatePart(s[1..])
  }

  /** An ISO date-time loses its time part; a bare date is kept as it is. */
  lemma {:induction false} DatePartOfDateTime(date: string, time: string)
    requires 'T' !in date
    ensures DatePart(date + "T" + time) == date
    ensures DatePart(date) == date
  {
    if date != [] {
      assert (date + "T" + time)[1..] == date[1..] + "T" + time;
      DatePartOfDateTime(date[1..], time);
    } else {
      assert date + "T" + time == "T" + time;
    }
  }

  /** The form filled from a loaded task: missing text becomes empty, missing status and priority get the defaults. */
  function FromLoaded(t: LoadedTask): (f: FormData)
    ensures f.title == (if t.title.Some? then t.title.value else "")
    ensures f.description == (if t.description.Some? then t.description.value else "")
    ensures f.status == (if Truthy(t.status) then t.status.value else "pending")
    ensures f.priority == (if Truthy(t.priority) then t.priority.value else "medium")
    ensures f.dueDate == (if Truthy(t.dueDate) then DatePart(t.dueDate.value) else "")
    ensures f.status != "" && f.priority != "" && 'T' !in f.dueDate
  {
    FormData(
      if Truthy(t.title) then t.title.value else "",
      if Truthy(t.description) then t.description.value else "",
      if Truthy(t.status) then t.status.value else "pending",
      if Truthy(t.priority) then t.priority.value else "medium",
      if Truthy(t.dueDate) then DatePart(t.dueDate.value) else "")
  }

  /** `{ ...prev, [name]: value }`. */
  function SetField(f: FormData, field: Field, value: string): FormData
  {
    match field
    case TitleField => f.(title := value)
    case DescriptionField => f.(description := value)
    case StatusField => f.(status := value)
    case PriorityField => f.(priority := value)
    case DueDateField => f.(dueDate := value)
  }

  /** The message shown when saving fails. */
  function SaveFailureText(message: Option<string>): (text: string)
    ensures text != ""
    ensures Truthy(message) ==> text == message.value
    ensures !Truthy(message) ==> text == "Something went wrong"
  {
    if Truthy(message) then message.value else "Something went wrong"
  }

  /** The body the controller sees once the payload arrives; `parseDate` stands for the store's date cast. */
  function RequestBody(p: Payload, parseDate: string -> Time): (b: TaskController.TaskBody)
    ensures b.dueDate.None? <==> p.dueDate.None?
    ensures b.dueDate.Some? ==> b.dueDate.value == parseDate(p.dueDate.value)
    ensures b.title == Some(p.title) && b.description == Some(p.description)
    ensures b.status == Some(p.status) && b.priority == Some(p.priority)
    ensures b.user.None?
  {
    TaskController.TaskBody(
      Some(p.title), Some(p.description), Some(p.status), Some(p.priority),
      if p.dueDate.Some? then Some(parseDate(p.dueDate.value)) else None,
      None)
  }

  /**
   * Emptying the due-date input while editing leaves the stored due date in place: the
   * payload omits the field and the update keeps every field the body omits.
   */
  lemma ClearedDueDateIsKept(t: Task, f: FormData, parseDate: string -> Time)
    requires f.dueDate == ""
    ensures TaskController.Patched(t, RequestBody(TaskData(f), parseDate)).dueDate == t.dueDate
  {
  }

  /**
   * Every non-empty title of whitespace alone is refused by the form, yet it is truthy for the
   * server, which would store it as it is if another client sent it.
   */
  lemma FormIsStricterThanServer(f: FormData, id: Option<string>, taskId: TaskId, caller: UserId, now: Time,
                                 parseDate: string -> Time)
    requires f.title != "" && Blank(f.title)
    ensures PlanSubmit(id, f).Rejected?
    ensures Truthy(RequestBody(TaskData(f), parseDate).title)
    ensures TaskController.NewTask(taskId, caller, RequestBody(TaskData(f), parseDate), now).title == f.title
  {
  }

  /** The form page's component state. */
  class TaskFormPage {
    const id: Option<string>
    var form: FormData
    var loading: bool
    var fetchLoading: bool
    var formError: string
    var toast: Option<Toast>

    constructor (id: Option<string>)
      ensures this.id == id && form == InitialForm
      ensures !loading && fetchLoading == Truthy(id) && formError == "" && toast == None
    {
      this.id := id;
      form := InitialForm;
      loading := false;
      fetchLoading := Truthy(id);
      formError := "";
      toast := None;
    }

    /** The loading effect: only when editing; fills the form or toasts and goes home. */
    method LoadTask(response: Option<LoadedTask>) returns (navigateHome: bool)
      modifies this
      ensures loading == old(loading) && formError == old(formError)
      ensures !Truthy(id) ==>
                form == old(form) && toast == old(toast) && fetchLoading == old(fetchLoading) && !navigateHome
      ensures Truthy(id) && response.Some? ==>
                form == FromLoaded(response.value) && toast == old(toast) && !fetchLoading && !navigateHome
      ensures Truthy(id) && response.None? ==>
                form == old(form) && toast == Some(Toast("Failed to load task", Error)) && !fetchLoading && navigateHome
    {
      navigateHome := false;
      if !Truthy(id) {
        return;
      }
      if response.Some? {
        form := FromLoaded(response.value);
      } else {
        toast := Some(Toast("Failed to load task", Error));
        navigateHome := true;
      }
      fetchLoading := false;
    }

    /** `handleChange`: writes the one named field and clears the form error. */
    method HandleChange(field: Field, value: string)
      modifies this
      ensures form == SetField(old(form), field, value) && formError == ""
      ensures loading == old(loading) && fetchLoading == old(fetchLoading) && toast == old(toast)
    {
      form := SetField(form, field, value);
      formError := "";
    }

    /** `handleSubmit`: validates, then sends a create or an update and reports how it went. */
    method HandleSubmit(result: SaveResult) returns (sent: Submission, navigateHome: bool)
      modifies this
      ensures sent == PlanSubmit(id, form) && form == old(form) && fetchLoading == old(fetchLoading)
      ensures sent.Rejected? ==>
                formError == "Please provide a task title" && !navigateHome
                && loading == old(loading) && toast == old(toast)
      ensures !sent.Rejected? && result.Saved? ==>
                formError == "" && navigateHome && !loading
                && toast == Some(Toast(if sent.UpdateRequest? then "Task updated successfully" else "Task created successfully", Success))
      ensures !sent.Rejected? && result.SaveFailed? ==>
                formError == SaveFailureText(result.message) && !navigateHome && !loading && toast == old(toast)
    {
      sent := PlanSubmit(id, form);
      navigateHome := false;
      formError := "";
      match sent
      case Rejected(message) =>
        formError := message;
      case _ =>
        loading := true;
        if result.Saved? {
          var message := if sent.UpdateRequest? then "Task updated successfully" else "Task created successfully";
          toast := Some(Toast(message, Success));
          navigateHome := true;
        } else {
          formError := SaveFailureText(result.message);
        }
        loading := false;
    }
  }
}
