/**
 * One tracked job application, as the dashboard stores it: four free-form
 * text fields, identified only by position in the list.
 */
module Applications {

  datatype Application = Application(company: string, role: string, status: string, date: string)

  /** The status given to a new application whose status field was left blank. */
  const DefaultStatus: string := "Applied"

  /** The add guard: both the company and the role field must be non-empty. */
  predicate CanAdd(company: string, role: string) {
    company != "" && role != ""
  }

  /**
   * The record built from the three form fields and the creation date: company,
   * role and date are kept verbatim; a blank status becomes `DefaultStatus`.
   */
  function NewApplication(company: string, role: string, status: string, date: string): (a: Application)
    ensures a.company == company && a.role == role && a.date == date
    ensures a.status != ""
    ensures status != "" ==> a.status == status
    ensures status == "" ==> a.status == DefaultStatus
  {
    Application(company, role, if status == "" then DefaultStatus else status, date)
  }
}
