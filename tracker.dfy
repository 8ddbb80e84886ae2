/**
 * The application tracker: the in-memory application list, the three form
 * fields, and the storage slot that mirrors the list after every change.
 */
module Tracker {
  import opened Wrappers
  import opened Applications
  import Csv

  /** The list at start: the stored one, or the empty list when nothing is stored. */
  function Load(saved: Option<seq<Application>>): (apps: seq<Application>)
    ensures saved.None? ==> apps == []
    ensures saved.Some? ==> apps == saved.value
  {
    match saved
    case None => []
    case Some(list) => list
  }

  class Dashboard {
    var applications: seq<Application>
    var company: string
    var role: string
    var status: string
    /** The persisted slot: the whole list as last written. */
    var stored: Option<seq<Application>>

    /** The slot always mirrors the in-memory list. */
    ghost predicate Valid()
      reads this
    {
      stored == Some(applications)
    }

    /**
     * Mounting the dashboard: the list is read from the slot (or is empty),
     * the form is blank, and the mirroring effect writes the list back.
     */
    constructor (saved: Option<seq<Application>>)
      ensures Valid()
      ensures applications == Load(saved)
      ensures saved.Some? ==> applications == saved.value
      ensures saved.None? ==> applications == []
      ensures company == "" && role == "" && status == ""
    {
      applications := Load(saved);
      company, role, status := "", "", "";
      stored := Some(applications);
    }

    method SetCompany(value: string)
      requires Valid()
      modifies this`company
      ensures Valid()
      ensures company == value
    {
      company := value;
    }

    method SetRole(value: string)
      requires Valid()
      modifies this`role
      ensures Valid()
      ensures role == value
    {
      role := value;
    }

    method SetStatus(value: string)
      requires Valid()
      modifies this`status
      ensures Valid()
      ensures status == value
    {
      status := value;
    }

    /**
     * "Add Application" on date `today`. With company and role filled in, one
     * record is appended after all earlier ones, the three fields are cleared
     * and the slot is rewritten; otherwise nothing at all changes.
     */
    method AddApplication(today: string)
      requires Valid()
      modifies this
      ensures Valid()
      ensures CanAdd(old(company), old(role)) ==>
        && applications == old(applications) + [NewApplication(old(company), old(role), old(status), today)]
        && company == "" && role == "" && status == ""
      ensures CanAdd(old(company), old(role)) ==>
        && |applications| == |old(applications)| + 1
        && (forall i :: 0 <= i < |old(applications)| ==> applications[i] == old(applications)[i])
      ensures !CanAdd(old(company), old(role)) ==>
        && applications == old(applications) && stored == old(stored)
        && company == old(company) && role == old(role) && status == old(status)
    {
      if CanAdd(company, role) {
        var app := NewApplication(company, role, status, today);
        applications := applications + [app];
        stored := Some(applications);
        company := "";
        role := "";
        status := "";
      }
    }

    /** The text "Export to CSV" saves, built from the current list. */
    method ExportCsv() returns (csv: string)
      ensures csv == Csv.Export(applications)
    {
      csv := Csv.Export(applications);
    }

    /** A fresh start reads the slot back: the new dashboard holds the same list. */
    method Reload() returns (next: Dashboard)
      requires Valid()
      ensures next.Valid()
      ensures next.applications == applications
      ensures next.company == "" && next.role == "" && next.status == ""
    {
      next := new Dashboard(stored);
    }
  }

  /**
   * The worked example: from an empty slot, add Acme / Engineer with a blank
   * status on `today`; the list, a reload and the export all agree.
   */
  method Example(today: string) returns (csv: string)
    ensures csv == "Company,Role,Status,Date\nAcme,Engineer,Applied," + today
  {
    var d := new Dashboard(None);
    d.SetCompany("Acme");
    d.SetRole("Engineer");
    d.AddApplication(today);
    assert d.applications == [Application("Acme", "Engineer", "Applied", today)];
    assert d.stored == Some([Application("Acme", "Engineer", "Applied", today)]);
    assert d.company == "" && d.role == "" && d.status == "";
    var again := d.Reload();
    assert again.applications == d.applications;
    csv := d.ExportCsv();
    Csv.ExampleExport(today);
  }
}
