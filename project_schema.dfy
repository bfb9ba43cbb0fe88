/**
 * The project form's schema (lib/validators/project.schema.ts): a name of at
 * least two characters, a description of at least five, a non-empty colour
 * and due date, and one of three statuses.
 */
module ProjectSchema {
  import opened SchemaRules
  import opened Wrappers
  import Project

  /** The values the project form submits. */
  datatype ProjectFormValues = ProjectFormValues(
    name: string,
    description: string,
    color: string,
    dueDate: string,
    status: string)

  /** The fields an issue can be reported against, in the schema's order. */
  datatype Field = Name | Description | Color | DueDate | Status

  const StatusOptions: seq<string> := ["active", "completed", "archived"]

  const NameRequired: string := "Name is required"
  const DescriptionTooShort: string := "Description is too short"
  const ColorRequired: string := "Color is required"
  const DueDateRequired: string := "Due date is required"

  /** The schema's five field rules, all of which must hold. */
  predicate IsValid(v: ProjectFormValues) {
    |v.name| >= 2 && |v.description| >= 5 && |v.color| >= 1 && |v.dueDate| >= 1
    && v.status in StatusOptions
  }

  /**
   * The issues the schema reports: none exactly when the values are valid,
   * for each field its own issue exactly when that field's rule fails, and
   * no issue besides those five. A one-character name is reported as
   * "Name is required".
   */
  function Issues(v: ProjectFormValues): (r: seq<Issue<Field>>)
    ensures r == [] <==> IsValid(v)
    ensures |r| <= 5
    ensures TooSmall(Name, 2, NameRequired) in r <==> |v.name| < 2
    ensures TooSmall(Description, 5, DescriptionTooShort) in r <==> |v.description| < 5
    ensures TooSmall(Color, 1, ColorRequired) in r <==> v.color == []
    ensures TooSmall(DueDate, 1, DueDateRequired) in r <==> v.dueDate == []
    ensures InvalidEnumValue(Status, StatusOptions, v.status) in r <==> v.status !in StatusOptions
    ensures forall x :: x in r ==> x in [
      TooSmall(Name, 2, NameRequired), TooSmall(Description, 5, DescriptionTooShort),
      TooSmall(Color, 1, ColorRequired), TooSmall(DueDate, 1, DueDateRequired),
      InvalidEnumValue(Status, StatusOptions, v.status)]
  {
    var name := MinLength(Name, v.name, 2, NameRequired);
    var description := MinLength(Description, v.description, 5, DescriptionTooShort);
    var color := MinLength(Color, v.color, 1, ColorRequired);
    var dueDate := MinLength(DueDate, v.dueDate, 1, DueDateRequired);
    var status := OneOf(Status, v.status, StatusOptions);
    var r := name + description + color + dueDate + status;
    assert forall x :: x in r <==> x in name || x in description || x in color || x in dueDate || x in status;
    r
  }

  /**
   * Submitting the form: the values are spread into the new record and the
   * defaults written after them, so whatever status was chosen the record
   * starts "active", a status the schema itself accepts.
   */
  lemma SubmittedProjectIsActive(v: ProjectFormValues, id: string)
    ensures var p := Project.CreateProject(Project.CreateProjectInput(v.name, v.description, v.color, Some(v.dueDate)), id);
      p.status == "active" && p.status in StatusOptions
      && p.name == v.name && p.description == v.description && p.color == v.color && p.dueDate == Some(v.dueDate)
  {
  }
}
