/**
 * The registry settings panel (src/components/RegistrySettings.tsx): the add/edit form, its
 * validation and submission payload, the delete-then-create edit, and the per-registry test
 * results. Each service call's result is an input; the calls issued are returned in order.
 */
module RegistrySettings {
  import opened Wrappers
  import opened Types

  datatype AuthType = NoAuth | BasicAuth | TokenAuth

  datatype RegistryForm = RegistryForm(name: string, url: string, authType: AuthType,
                                       username: string, password: string, token: string)

  const InitialForm: RegistryForm := RegistryForm("", "", NoAuth, "", "", "")

  /** Why a submission is refused before any service call; each is reported by an alert. */
  datatype Rejection = MissingNameOrUrl | MissingBasicCredentials | MissingToken

  /** `handleSubmit`'s checks, in the order the handler makes them. */
  function Validate(form: RegistryForm): (r: Option<Rejection>)
    ensures r == Some(MissingNameOrUrl) <==> form.name == "" || form.url == ""
    ensures r == Some(MissingBasicCredentials) <==>
      form.name != "" && form.url != "" && form.authType == BasicAuth && (form.username == "" || form.password == "")
    ensures r == Some(MissingToken) <==>
      form.name != "" && form.url != "" && form.authType == TokenAuth && form.token == ""
    ensures r == None <==> Acceptable(form)
  {
    if form.name == "" || form.url == "" then Some(MissingNameOrUrl)
    else if form.authType == BasicAuth && (form.username == "" || form.password == "") then Some(MissingBasicCredentials)
    else if form.authType == TokenAuth && form.token == "" then Some(MissingToken)
    else None
  }

  /** A form the handler sends: name and url given, and the credentials its auth type needs. */
  predicate Acceptable(form: RegistryForm) {
    && form.name != "" && form.url != ""
    && (form.authType == BasicAuth ==> form.username != "" && form.password != "")
    && (form.authType == TokenAuth ==> form.token != "")
  }

  /** The `createData` object: credentials only for the auth type that uses them, TLS checks never skipped. */
  function CreatePayload(form: RegistryForm): (dto: CreateHelmRepoDto)
    ensures dto.name == form.name && dto.url == form.url && !dto.insecureSkipTLSVerify
    ensures dto.username.Some? <==> form.authType == BasicAuth
    ensures dto.password.Some? <==> form.authType == BasicAuth
    ensures dto.token.Some? <==> form.authType == TokenAuth
    ensures form.authType == BasicAuth ==> dto.username == Some(form.username) && dto.password == Some(form.password)
    ensures form.authType == TokenAuth ==> dto.token == Some(form.token)
  {
    CreateHelmRepoDto(form.name, form.url,
      if form.authType == BasicAuth then Some(form.username) else None,
      if form.authType == BasicAuth then Some(form.password) else None,
      if form.authType == TokenAuth then Some(form.token) else None,
      false)
  }

  /** The auth type a payload was built for, read back from which credentials it carries. */
  function PayloadAuth(dto: CreateHelmRepoDto): AuthType {
    if dto.username.Some? then BasicAuth else if dto.token.Some? then TokenAuth else NoAuth
  }

  /**
   * The payload of an accepted form carries exactly its form's name, url and credentials: the form
   * can be read back from it, up to the fields its auth type ignores.
   */
  lemma PayloadRoundTrip(form: RegistryForm)
    requires Acceptable(form)
    ensures PayloadAuth(CreatePayload(form)) == form.authType
    ensures var dto := CreatePayload(form);
      form.authType == BasicAuth ==> Truthy(dto.username) && Truthy(dto.password)
    ensures var dto := CreatePayload(form);
      form.authType == TokenAuth ==> Truthy(dto.token)
  {
  }

  /** The form `handleEdit` fills from a stored registry. */
  function EditForm(registry: HelmRepoEntity): (form: RegistryForm)
    ensures form.name == registry.name && form.url == registry.url
    ensures form.authType == BasicAuth <==> Truthy(registry.username)
    ensures form.authType != TokenAuth
    ensures form.username == OrText(registry.username, "")
    ensures form.password == "" && form.token == ""
  {
    RegistryForm(registry.name, registry.url,
      if Truthy(registry.username) then BasicAuth else NoAuth,
      OrText(registry.username, ""), "", "")
  }

  /**
   * Editing never reproduces a submittable basic-auth form: the stored password is not shown, so
   * resubmitting an edited basic-auth registry unchanged is refused until a password is typed.
   */
  lemma EditedBasicFormNeedsPassword(registry: HelmRepoEntity)
    requires Truthy(registry.username) && registry.name != "" && registry.url != ""
    ensures Validate(EditForm(registry)) == Some(MissingBasicCredentials)
  {
  }

  /** A registry created with token auth is edited as one without authentication: the token is not kept. */
  lemma EditForgetsToken(form: RegistryForm, stored: HelmRepoEntity)
    requires form.authType == TokenAuth
    requires stored.name == form.name && stored.url == form.url
    requires stored.username == CreatePayload(form).username
    ensures EditForm(stored).authType == NoAuth && EditForm(stored).token == ""
  {
  }

  /** A basic-auth registry stored as created comes back as a basic-auth form with its user name. */
  lemma EditKeepsBasicUser(form: RegistryForm, stored: HelmRepoEntity)
    requires Acceptable(form) && form.authType == BasicAuth
    requires stored.name == form.name && stored.url == form.url
    requires stored.username == CreatePayload(form).username
    ensures EditForm(stored) == form.(password := "", token := "")
  {
  }

  /** A call to the registry service, in the order the panel issues them. */
  datatype ServiceCall = DeleteRepo(name: string) | CreateRepo(dto: CreateHelmRepoDto) | ListRepos

  /**
   * The calls a submission issues: none for a refused form; when editing (a non-empty editing
   * id), delete then create, stopping at the first failure; then a reload once everything succeeded.
   */
  function SubmitCalls(form: RegistryForm, editingId: Option<string>, deleteOk: bool, createOk: bool): (calls: seq<ServiceCall>)
    ensures Validate(form).Some? ==> calls == []
    ensures Validate(form).None? && Truthy(editingId) ==> |calls| > 0 && calls[0] == DeleteRepo(editingId.value)
    ensures Validate(form).None? && !Truthy(editingId) ==> |calls| > 0 && calls[0] == CreateRepo(CreatePayload(form))
    ensures CreateRepo(CreatePayload(form)) in calls <==> Validate(form).None? && (!Truthy(editingId) || deleteOk)
    ensures ListRepos in calls <==> Validate(form).None? && (!Truthy(editingId) || deleteOk) && createOk
    ensures forall i :: 0 <= i < |calls| && calls[i].CreateRepo? ==> !Truthy(editingId) || (i == 1 && calls[0].DeleteRepo?)
    ensures |calls| <= 3
    ensures forall i :: 0 < i < |calls| ==> !calls[i].DeleteRepo?
    ensures forall i :: 0 <= i < |calls| && calls[i].ListRepos? ==> i == |calls| - 1
  {
    if Validate(form).Some? then []
    else
      var dto := CreatePayload(form);
      var removal := if Truthy(editingId) then [DeleteRepo(editingId.value)] else [];
      if Truthy(editingId) && !deleteOk then removal
      else if !createOk then removal + [CreateRepo(dto)]
      else removal + [CreateRepo(dto), ListRepos]
  }

  /** An empty editing id counts as no edit: the submission only creates, as for a new registry. */
  lemma EmptyEditingIdOnlyCreates(form: RegistryForm, deleteOk: bool, createOk: bool)
    ensures SubmitCalls(form, Some(""), deleteOk, createOk) == SubmitCalls(form, None, deleteOk, createOk)
    ensures forall c :: c in SubmitCalls(form, Some(""), deleteOk, createOk) ==> !c.DeleteRepo?
  {
  }

  /** The form's heading and submit-button caption; both follow the same truthiness test as the submission. */
  function FormHeading(editingId: Option<string>): string {
    if Truthy(editingId) then "Edit Registry" else "Add New Registry"
  }

  function SubmitCaption(editingId: Option<string>): string {
    (if Truthy(editingId) then "Update" else "Add") + " Registry"
  }

  /** The form announces an edit exactly when submitting it would delete the old registry first. */
  lemma HeadingMatchesSubmission(form: RegistryForm, editingId: Option<string>, deleteOk: bool, createOk: bool)
    requires Acceptable(form)
    ensures var calls := SubmitCalls(form, editingId, deleteOk, createOk);
      && (FormHeading(editingId) == "Edit Registry" <==> calls[0].DeleteRepo?)
      && (SubmitCaption(editingId) == "Update Registry" <==> calls[0].DeleteRepo?)
  {
    var calls := SubmitCalls(form, editingId, deleteOk, createOk);
    assert Validate(form).None?;
    if !Truthy(editingId) {
      assert FormHeading(editingId)[0] == 'A';
      assert SubmitCaption(editingId)[0] == 'A';
    }
  }

  /** The outcome `isHelmRepoExist` led to for one registry. */
  datatype TestStatus = Testing | Passed | Failed

  /** What a finished test records: success exactly when the service answered that the registry exists. */
  function TestVerdict(exists_: Outcome<bool>): (s: TestStatus)
    ensures s != Testing
    ensures s == Passed <==> exists_ == Ok(true)
  {
    if exists_ == Ok(true) then Passed else Failed
  }

  /** The panel's state, as the component keeps it. */
  class RegistryPanel {
    var registries: seq<HelmRepoEntity>
    var loading: bool
    var showForm: bool
    var editingId: Option<string>
    var form: RegistryForm
    var showPassword: bool
    var testingRegistry: Option<string>
    var testResults: map<string, TestStatus>

    constructor ()
      ensures registries == [] && !loading && !showForm && editingId == None
      ensures form == InitialForm && !showPassword && testingRegistry == None && testResults == map[]
    {
      registries := [];
      loading := false;
      showForm := false;
      editingId := None;
      form := InitialForm;
      showPassword := false;
      testingRegistry := None;
      testResults := map[];
    }

    /** `loadRegistries`: the directory, or no registries on failure or an empty body. */
    method LoadRegistries(response: DirectoryResponse)
      modifies this`registries, this`loading
      ensures !loading
      ensures registries == match response
        case Ok(body) => OrEmpty(body)
        case Fail => []
    {
      loading := true;
      match response {
        case Ok(body) => registries := OrEmpty(body);
        case Fail => registries := [];
      }
      loading := false;
    }

    /** `resetForm`. */
    method ResetForm()
      modifies this`form, this`editingId, this`showForm, this`showPassword
      ensures form == InitialForm && editingId == None && !showForm && !showPassword
    {
      form := InitialForm;
      editingId := None;
      showForm := false;
      showPassword := false;
    }

    /** `handleEdit`: the form is filled from the registry and the registry's name is kept as the one to replace. */
    method HandleEdit(registry: HelmRepoEntity)
      modifies this`editingId, this`form, this`showForm
      ensures editingId == Some(registry.name) && form == EditForm(registry) && showForm
    {
      editingId := Some(registry.name);
      form := EditForm(registry);
      showForm := true;
    }

    /**
     * `handleSubmit`. The form is cleared and the list reloaded only when every call succeeded; a
     * refused form or a failing call leaves the form, the list and the editing state as they were.
     */
    method HandleSubmit(deleteOk: bool, createOk: bool, reload: DirectoryResponse) returns (calls: seq<ServiceCall>)
      modifies this`registries, this`loading, this`form, this`editingId, this`showForm, this`showPassword
      ensures calls == SubmitCalls(old(form), old(editingId), deleteOk, createOk)
      ensures ListRepos in calls ==>
        form == InitialForm && editingId == None && !showForm && !showPassword && !loading
        && registries == (match reload case Ok(body) => OrEmpty(body) case Fail => [])
      ensures ListRepos !in calls ==>
        form == old(form) && editingId == old(editingId) && showForm == old(showForm)
        && showPassword == old(showPassword) && registries == old(registries) && loading == old(loading)
    {
      calls := [];
      if Validate(form).Some? {
        return;
      }
      var dto := CreatePayload(form);
      if Truthy(editingId) {
        calls := calls + [DeleteRepo(editingId.value)];
        if !deleteOk {
          return;
        }
      }
      calls := calls + [CreateRepo(dto)];
      if !createOk {
        return;
      }
      calls := calls + [ListRepos];
      LoadRegistries(reload);
      ResetForm();
    }

    /** `handleDelete`: nothing unless confirmed; the list is reloaded only after a successful delete. */
    method HandleDelete(name: string, confirmed: bool, deleteOk: bool, reload: DirectoryResponse) returns (calls: seq<ServiceCall>)
      modifies this`registries, this`loading
      ensures calls == if !confirmed then [] else if !deleteOk then [DeleteRepo(name)] else [DeleteRepo(name), ListRepos]
      ensures ListRepos in calls ==> registries == (match reload case Ok(body) => OrEmpty(body) case Fail => []) && !loading
      ensures ListRepos !in calls ==> registries == old(registries) && loading == old(loading)
    {
      calls := [];
      if confirmed {
        calls := [DeleteRepo(name)];
        if deleteOk {
          calls := calls + [ListRepos];
          LoadRegistries(reload);
        }
      }
    }

    /** The first half of `testRegistry`: the registry is marked as under test. */
    method BeginTest(name: string)
      modifies this`testingRegistry, this`testResults
      ensures testingRegistry == Some(name)
      ensures testResults == old(testResults)[name := Testing]
    {
      testingRegistry := Some(name);
      testResults := testResults[name := Testing];
    }

    /** The settlement of `testRegistry`: the verdict is recorded under the registry's name only, and no test is shown running. */
    method FinishTest(name: string, exists_: Outcome<bool>)
      modifies this`testingRegistry, this`testResults
      ensures testingRegistry == None
      ensures testResults == old(testResults)[name := TestVerdict(exists_)]
    {
      testResults := testResults[name := TestVerdict(exists_)];
      testingRegistry := None;
    }

    /** `testRegistry` run to completion. */
    method TestRegistry(name: string, exists_: Outcome<bool>)
      modifies this`testingRegistry, this`testResults
      ensures testingRegistry == None
      ensures testResults == old(testResults)[name := TestVerdict(exists_)]
      ensures forall other :: other in old(testResults) && other != name ==> testResults[other] == old(testResults)[other]
    {
      BeginTest(name);
      FinishTest(name, exists_);
    }
  }

  /**
   * Two overlapping tests: when the first settles, the slot that disables a registry's test button
   * is cleared although the second is still running.
   */
  method OverlappingTests()
  {
    var panel := new RegistryPanel();
    panel.BeginTest("alpha");
    panel.BeginTest("beta");
    panel.FinishTest("alpha", Ok(true));
    assert panel.testingRegistry == None;
    assert panel.testResults["beta"] == Testing;
    assert panel.testResults["alpha"] == Passed;
  }
}
