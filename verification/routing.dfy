/** Choice of the report recipient. The backend has two copies of the rule: one
    beside the report sender in the API module and one in the e-mail service,
    whose tables list two more departments. Both pick the HR table exactly when
    the preference lower-cases to "hr" and otherwise the manager table, then look
    the department up exactly, falling back to the table's "default" entry. */
module Routing {

  import opened Text

  const HrAddress := "itsharshprateek@gmail.com"
  const ManagerAddress := "harshstring123@gmail.com"
  /** The manager entries the e-mail service adds are spelled with a capital H. */
  const ManagerAddressCapitalised := "Harshstring123@gmail.com"

  /** The API module's tables. */
  const ApiHrEmails: map<string, string> :=
    map["default" := HrAddress, "IT" := HrAddress, "HR" := HrAddress, "Finance" := HrAddress,
        "Marketing" := HrAddress]
  const ApiManagerEmails: map<string, string> :=
    map["default" := ManagerAddress, "IT" := ManagerAddress, "HR" := ManagerAddress,
        "Finance" := ManagerAddress, "Marketing" := ManagerAddress]

  /** The e-mail service's tables. */
  const ServiceHrEmails: map<string, string> :=
    ApiHrEmails["Operations" := HrAddress]["sales" := HrAddress]
  const ServiceManagerEmails: map<string, string> :=
    ApiManagerEmails["Operations" := ManagerAddressCapitalised]["sales" := ManagerAddressCapitalised]

  /** `table.get(department, table["default"])`. */
  function Lookup(table: map<string, string>, department: string): (r: string)
    requires "default" in table
    ensures r in table.Values
    ensures department in table ==> r == table[department]
    ensures department !in table ==> r == table["default"]
  {
    if department in table then table[department] else table["default"]
  }

  /** The preference selects the HR table. */
  predicate ReportsToHr(reportTo: string)
  {
    Lower(reportTo) == "hr"
  }

  /** `get_recipient_email` of the API module. */
  function GetRecipientEmail(reportTo: string, department: string): (r: string)
    ensures ReportsToHr(reportTo) ==> r in ApiHrEmails.Values
    ensures !ReportsToHr(reportTo) ==> r in ApiManagerEmails.Values
    ensures var table := if ReportsToHr(reportTo) then ApiHrEmails else ApiManagerEmails;
      r == if department in table then table[department] else table["default"]
  {
    if ReportsToHr(reportTo) then Lookup(ApiHrEmails, department)
    else Lookup(ApiManagerEmails, department)
  }

  /** `EmailService._get_recipient_email`. */
  function ServiceRecipientEmail(reportTo: string, department: string): (r: string)
    ensures ReportsToHr(reportTo) ==> r in ServiceHrEmails.Values
    ensures !ReportsToHr(reportTo) ==> r in ServiceManagerEmails.Values
    ensures var table := if ReportsToHr(reportTo) then ServiceHrEmails else ServiceManagerEmails;
      r == if department in table then table[department] else table["default"]
  {
    if ReportsToHr(reportTo) then Lookup(ServiceHrEmails, department)
    else Lookup(ServiceManagerEmails, department)
  }

  /** The recipient of a severe-case notification: a missing "reportTo" reads as
      "hr" and a missing "department" as "", which falls back to the default entry. */
  function NotificationRecipient(userData: map<string, string>): (r: string)
    ensures "reportTo" !in userData && "department" !in userData ==> r == HrAddress
    ensures r == ServiceRecipientEmail(
      if "reportTo" in userData then userData["reportTo"] else "hr",
      if "department" in userData then userData["department"] else "")
  {
    var reportTo := if "reportTo" in userData then userData["reportTo"] else "hr";
    var department := if "department" in userData then userData["department"] else "";
    LowerOfLowerCase("hr");
    ServiceRecipientEmail(reportTo, department)
  }

  /** The comparison with "hr" ignores case. */
  lemma HrPreferenceIgnoresCase(department: string)
    ensures GetRecipientEmail("HR", department) == GetRecipientEmail("hr", department) == HrAddress
    ensures ServiceRecipientEmail("Hr", department) == ServiceRecipientEmail("hr", department) == HrAddress
  {
    assert Lower("HR") == "hr";
    assert Lower("Hr") == "hr";
    LowerOfLowerCase("hr");
  }

  /** Any other preference, "manager" included, selects the manager table; a
      department spelled in another case is unknown and gets the default entry. */
  lemma ManagerFallbacks()
    ensures GetRecipientEmail("manager", "IT") == ManagerAddress
    ensures GetRecipientEmail("", "it") == ManagerAddress
    ensures ServiceRecipientEmail("manager", "Sales") == ManagerAddress
    ensures ServiceRecipientEmail("manager", "sales") == ManagerAddressCapitalised
  {
    LowerOfLowerCase("manager");
    assert Lower("") == "";
  }

  /** The two copies of the rule give the same address except for a manager-bound
      report from Operations or sales, where the service's capitalised entry wins. */
  lemma {:induction false} CopiesAgree(reportTo: string, department: string)
    ensures GetRecipientEmail(reportTo, department) == ServiceRecipientEmail(reportTo, department)
        <==> ReportsToHr(reportTo) || department !in {"Operations", "sales"}
  {
    if !ReportsToHr(reportTo) && department in {"Operations", "sales"} {
      assert ManagerAddress[0] != ManagerAddressCapitalised[0];
    }
  }
}
