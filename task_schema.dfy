/**
 * The task form's schema (lib/validators/task.schema.ts): title, description,
 * project and due date must be non-empty, priority and status must be one of
 * their listed spellings. Every field is checked and every failing field
 * reports its own issue, in the schema's field order.
 */
module TaskSchema {
  import opened SchemaRules
  import Tasks

  /** The values the task form submits. */
  datatype TaskFormValues = TaskFormValues(
    title: string,
    description: string,
    projectId: string,
    priority: string,
    status: string,
    dueDate: string)

  /** The fields an issue can be reported against, in the schema's order. */
  datatype Field = Title | Description | ProjectId | Priority | Status | DueDate

  const PriorityOptions: seq<string> := ["low", "medium", "high"]
  const StatusOptions: seq<string> := ["todo", "in_progress", "done"]

  const TitleRequired: string := "Title is required"
  const DescriptionRequired: string := "Description is required"
  const ProjectRequired: string := "Project is required"
  const DueDateRequired: string := "Due date is required"

  /** The schema's six field rules, all of which must hold. */
  predicate IsValid(v: TaskFormValues) {
    |v.title| >= 1 && |v.description| >= 1 && |v.projectId| >= 1
    && v.priority in PriorityOptions && v.status in StatusOptions
    && |v.dueDate| >= 1
  }

  /**
   * The issues the schema reports: none exactly when the values are valid,
   * for each field its own issue exactly when that field's rule fails, and
   * no issue besides those six.
   */
  function Issues(v: TaskFormValues): (r: seq<Issue<Field>>)
    ensures r == [] <==> IsValid(v)
    ensures |r| <= 6
    ensures TooSmall(Title, 1, TitleRequired) in r <==> v.title == []
    ensures TooSmall(Description, 1, DescriptionRequired) in r <==> v.description == []
    ensures TooSmall(ProjectId, 1, ProjectRequired) in r <==> v.projectId == []
    ensures InvalidEnumValue(Priority, PriorityOptions, v.priority) in r <==> v.priority !in PriorityOptions
    ensures InvalidEnumValue(Status, StatusOptions, v.status) in r <==> v.status !in StatusOptions
    ensures TooSmall(DueDate, 1, DueDateRequired) in r <==> v.dueDate == []
    ensures forall x :: x in r ==> x in [
      TooSmall(Title, 1, TitleRequired), TooSmall(Description, 1, DescriptionRequired),
      TooSmall(ProjectId, 1, ProjectRequired), InvalidEnumValue(Priority, PriorityOptions, v.priority),
      InvalidEnumValue(Status, StatusOptions, v.status), TooSmall(DueDate, 1, DueDateRequired)]
  {
    var title := MinLength(Title, v.title, 1, TitleRequired);
    var description := MinLength(Description, v.description, 1, DescriptionRequired);
    var projectId := MinLength(ProjectId, v.projectId, 1, ProjectRequired);
    var priority := OneOf(Priority, v.priority, PriorityOptions);
    var status := OneOf(Status, v.status, StatusOptions);
    var dueDate := MinLength(DueDate, v.dueDate, 1, DueDateRequired);
    var r := title + description + projectId + priority + status + dueDate;
    assert forall x :: x in r <==>
      x in title || x in description || x in projectId || x in priority || x in status || x in dueDate;
    r
  }

  /**
   * The form accepts three of the four status spellings the task type
   * admits: the dashboard's "in-progress" is rejected.
   */
  lemma AcceptedStatusSpellings(s: Tasks.Status)
    ensures Tasks.Spelling(s) in StatusOptions <==> s != Tasks.InProgressHyphen
  {
    if s == Tasks.InProgressHyphen {
      assert Tasks.Spelling(s) != StatusOptions[0];
      assert Tasks.Spelling(s) != StatusOptions[1];
      assert Tasks.Spelling(s) != StatusOptions[2];
    }
  }
}
