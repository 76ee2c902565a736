/**
  The state of the resources panel: the list of shared resources, the three-step
  request wizard with the requests it has submitted, and the add-resource form.
  The pure queries the panel renders from (lookup by id, request status, the per-type
  tabs, tag parsing) are functions; the event handlers are methods of `Panel`.
 */
module ResourcesPanel {
  import opened Wrappers
  import opened JsString

  /** The icon shown for a resource (only which one; the drawing is not modelled). */
  datatype Icon = Laptop | Server | Database | Users

  datatype Resource = Resource(
    id: int,
    name: string,
    provider: string,
    resourceType: string,
    icon: Icon,
    availability: string,
    capacity: int,
    usedCapacity: int,
    tags: seq<string>)

  /** A submitted request: the requested resource's id and a status string. */
  datatype ResourceRequest = ResourceRequest(id: int, status: string)

  datatype RequestFormData = RequestFormData(
    resourceId: int,
    purpose: string,
    date: string,
    startTime: string,
    endTime: string,
    participants: int,
    additionalNotes: string)

  datatype AddResourceFormData = AddResourceFormData(
    name: string,
    provider: string,
    resourceType: string,
    availability: string,
    capacity: int,
    tags: string)

  /** One change event of the request form: the input that changed and its new value. */
  datatype RequestFormEdit =
    | SetPurpose(purpose: string)
    | SetParticipants(participants: int)
    | SetDate(date: string)
    | SetStartTime(startTime: string)
    | SetEndTime(endTime: string)
    | SetAdditionalNotes(additionalNotes: string)

  /** One change event of the add-resource form's text and number inputs. */
  datatype AddResourceFormEdit =
    | SetName(name: string)
    | SetProvider(provider: string)
    | SetAvailability(availability: string)
    | SetCapacity(capacity: int)
    | SetTags(tags: string)

  /** The wizard's left-hand button. */
  datatype SecondaryButton = Back | Cancel

  /** The status every request is created with. */
  const Pending: string := "pending"

  /** The name of the tab that shows every resource. */
  const AllTab: string := "all"

  function InitialResources(): seq<Resource> {
    [ Resource(1, "Lab with 80 computers", "Engineering College", "hardware", Laptop,
               "Weekdays 6-9pm", 80, 23, ["Computing", "Workshop"]),
      Resource(2, "Cloud Server Cluster", "CS Department", "computing", Server,
               "24/7 Access", 100, 45, ["High Performance", "Research"]),
      Resource(3, "Database Infrastructure", "Tech Startup Hub", "software", Database,
               "Unlimited Access", 100, 60, ["Storage", "Enterprise"]),
      Resource(4, "Conference Hall", "Business School", "venue", Users,
               "Weekends", 200, 0, ["Events", "Presentations"]) ]
  }

  function EmptyRequestForm(): RequestFormData {
    RequestFormData(0, "", "", "", "", 0, "")
  }

  function EmptyAddResourceForm(): AddResourceFormData {
    AddResourceFormData("", "", "hardware", "", 0, "")
  }

  /**
    The icon a new resource gets from the type chosen in the add-resource form: each of the
    three known types has its own icon; every other type, "venue" included, shares the Users icon.
   */
  function IconFor(resourceType: string): (icon: Icon)
    ensures icon == Laptop <==> resourceType == "hardware"
    ensures icon == Server <==> resourceType == "computing"
    ensures icon == Database <==> resourceType == "software"
    ensures icon == Users <==> resourceType != "hardware" && resourceType != "computing" && resourceType != "software"
  {
    if resourceType == "hardware" then Laptop
    else if resourceType == "computing" then Server
    else if resourceType == "software" then Database
    else Users
  }

  /** The request form's change handler writes only the input it names; the resource id is never an input. */
  function ApplyRequestEdit(d: RequestFormData, e: RequestFormEdit): (r: RequestFormData)
    ensures r.resourceId == d.resourceId
    ensures r.purpose == if e.SetPurpose? then e.purpose else d.purpose
    ensures r.participants == if e.SetParticipants? then e.participants else d.participants
    ensures r.date == if e.SetDate? then e.date else d.date
    ensures r.startTime == if e.SetStartTime? then e.startTime else d.startTime
    ensures r.endTime == if e.SetEndTime? then e.endTime else d.endTime
    ensures r.additionalNotes == if e.SetAdditionalNotes? then e.additionalNotes else d.additionalNotes
  {
    match e
    case SetPurpose(v) => d.(purpose := v)
    case SetParticipants(v) => d.(participants := v)
    case SetDate(v) => d.(date := v)
    case SetStartTime(v) => d.(startTime := v)
    case SetEndTime(v) => d.(endTime := v)
    case SetAdditionalNotes(v) => d.(additionalNotes := v)
  }

  /** The add-resource form's change handler writes only the input it names; the type has its own handler. */
  function ApplyAddResourceEdit(d: AddResourceFormData, e: AddResourceFormEdit): (r: AddResourceFormData)
    ensures r.resourceType == d.resourceType
    ensures r.name == if e.SetName? then e.name else d.name
    ensures r.provider == if e.SetProvider? then e.provider else d.provider
    ensures r.availability == if e.SetAvailability? then e.availability else d.availability
    ensures r.capacity == if e.SetCapacity? then e.capacity else d.capacity
    ensures r.tags == if e.SetTags? then e.tags else d.tags
  {
    match e
    case SetName(v) => d.(name := v)
    case SetProvider(v) => d.(provider := v)
    case SetAvailability(v) => d.(availability := v)
    case SetCapacity(v) => d.(capacity := v)
    case SetTags(v) => d.(tags := v)
  }

  /** The resource at index `i` has id `i + 1`. */
  predicate IdsInPosition(rs: seq<Resource>) {
    forall i :: 0 <= i < |rs| ==> rs[i].id == i + 1
  }

  /** Every request carries the status it was created with. */
  predicate AllPending(reqs: seq<ResourceRequest>) {
    forall i :: 0 <= i < |reqs| ==> reqs[i].status == Pending
  }

  /** The lookup by id: the first resource with that id, or none when no resource has it. */
  function GetResourceById(rs: seq<Resource>, id: int): (r: Option<Resource>)
    ensures r.None? <==> forall i :: 0 <= i < |rs| ==> rs[i].id != id
    ensures r.Some? ==>
      exists i :: 0 <= i < |rs| && rs[i] == r.value && r.value.id == id && forall j :: 0 <= j < i ==> rs[j].id != id
  {
    if rs == [] then None
    else if rs[0].id == id then Some(rs[0])
    else
      var r := GetResourceById(rs[1..], id);
      assert forall i :: 1 <= i < |rs| ==> rs[i] == rs[1..][i - 1];
      r
  }

  /** Whether some request names the resource `id`, tried from the first request on. */
  predicate IsResourceRequested(reqs: seq<ResourceRequest>, id: int): (b: bool)
    ensures b <==> exists i :: 0 <= i < |reqs| && reqs[i].id == id
  {
    if reqs == [] then false
    else if reqs[0].id == id then true
    else
      var b := IsResourceRequested(reqs[1..], id);
      assert forall i :: 1 <= i < |reqs| ==> reqs[i] == reqs[1..][i - 1];
      b
  }

  /**
    The status of the first request for `id`, or none when there is none: defined exactly
    when the resource is requested.
   */
  function GetResourceRequestStatus(reqs: seq<ResourceRequest>, id: int): (r: Option<string>)
    ensures r.None? <==> !IsResourceRequested(reqs, id)
    ensures r.Some? ==>
      exists i :: 0 <= i < |reqs| && reqs[i] == ResourceRequest(id, r.value) && forall j :: 0 <= j < i ==> reqs[j].id != id
  {
    if reqs == [] then None
    else if reqs[0].id == id then Some(reqs[0].status)
    else
      var r := GetResourceRequestStatus(reqs[1..], id);
      assert forall i :: 1 <= i < |reqs| ==> reqs[i] == reqs[1..][i - 1];
      r
  }

  /** A type tab's filter: exactly the resources of type `t`, in list order. */
  function OfType(rs: seq<Resource>, t: string): (r: seq<Resource>)
    ensures |r| <= |rs|
    ensures forall x :: x in r <==> x in rs && x.resourceType == t
  {
    if rs == [] then []
    else if rs[0].resourceType == t then [rs[0]] + OfType(rs[1..], t)
    else OfType(rs[1..], t)
  }

  /** What a tab lists: every resource on the "all" tab, the resources of that type on the others. */
  function TabContents(rs: seq<Resource>, tab: string): (r: seq<Resource>)
    ensures tab == AllTab ==> r == rs
    ensures tab != AllTab ==> forall x :: x in r <==> x in rs && x.resourceType == tab
  {
    if tab == AllTab then rs else OfType(rs, tab)
  }

  /** Each piece trimmed, in order. */
  function TrimEach(pieces: seq<string>): (r: seq<string>)
    ensures |r| == |pieces|
    ensures forall i :: 0 <= i < |pieces| ==> r[i] == Trim(pieces[i])
  {
    if pieces == [] then [] else [Trim(pieces[0])] + TrimEach(pieces[1..])
  }

  /** The tags of a new resource: one per comma-separated piece of the input, trimmed, none holding a comma or outer whitespace. */
  function ParseTags(s: string): (tags: seq<string>)
    ensures exists pieces :: TagsFromPieces(s, pieces, tags)
    ensures |tags| == Count(s, ',') + 1
    ensures forall i :: 0 <= i < |tags| ==> ',' !in tags[i]
    ensures forall i :: 0 <= i < |tags| ==> tags[i] == [] || (!IsWhitespace(tags[i][0]) && !IsWhitespace(tags[i][|tags[i]| - 1]))
  {
    var pieces := Split(s, ',');
    var tags := TrimEach(pieces);
    assert exists p :: TagsFromPieces(s, p, tags) by {
      SplitJoin(s, ',');
      SplitPiecesFree(s, ',');
      assert TagsFromPieces(s, pieces, tags);
    }
    assert |tags| == Count(s, ',') + 1 by {
      SplitCount(s, ',');
    }
    assert forall i :: 0 <= i < |tags| ==> ',' !in tags[i] by {
      SplitPiecesFree(s, ',');
      TrimKeepsOut(pieces, ',');
    }
    assert forall i :: 0 <= i < |tags| ==> tags[i] == [] || (!IsWhitespace(tags[i][0]) && !IsWhitespace(tags[i][|tags[i]| - 1])) by {
      TrimAllEnds(pieces);
    }
    tags
  }

  /**
    `tags` are the trimmed `pieces`, one for one, where the pieces hold no comma and
    joined with commas give back `s`: `s` cut at every comma, each piece trimmed.
   */
  predicate TagsFromPieces(s: string, pieces: seq<string>, tags: seq<string>) {
    && Join(pieces, ',') == s
    && (forall i :: 0 <= i < |pieces| ==> ',' !in pieces[i])
    && |tags| == |pieces|
    && (forall i :: 0 <= i < |pieces| ==> tags[i] == Trim(pieces[i]))
  }

  /** No trimmed piece starts or ends with whitespace. */
  lemma TrimAllEnds(pieces: seq<string>)
    ensures forall i :: 0 <= i < |pieces| ==>
      var t := Trim(pieces[i]); t == [] || (!IsWhitespace(t[0]) && !IsWhitespace(t[|t| - 1]))
  {
    forall i | 0 <= i < |pieces|
      ensures var t := Trim(pieces[i]); t == [] || (!IsWhitespace(t[0]) && !IsWhitespace(t[|t| - 1]))
    {
      TrimShape(pieces[i]);
    }
  }

  /** Trimming a piece cannot bring in a character it did not have. */
  lemma TrimKeepsOut(pieces: seq<string>, c: char)
    requires forall i :: 0 <= i < |pieces| ==> c !in pieces[i]
    ensures forall i :: 0 <= i < |pieces| ==> c !in Trim(pieces[i])
  {
    forall i | 0 <= i < |pieces| ensures c !in Trim(pieces[i]) {
      var p := pieces[i];
      var t := Trim(p);
      TrimShape(p);
      var k :| TrimmedAt(p, t, k);
      forall j | 0 <= j < |t| ensures t[j] != c {
        assert t[j] == p[k..k + |t|][j] == p[k + j];
      }
    }
  }

  /** An empty tags input still yields one, empty, tag. */
  lemma EmptyTagsInput()
    ensures ParseTags("") == [""]
  {
    assert Split("", ',') == [""];
  }

  /** Two comma-separated pieces give two tags, each trimmed. */
  lemma TagsAroundComma(a: string, b: string)
    requires ',' !in a && ',' !in b
    ensures ParseTags(a + [','] + b) == [Trim(a), Trim(b)]
  {
    SplitNoSeparator(b, ',');
    SplitFirst(a, b, ',');
  }

  /** The tags typed as "GPU, Research" become the two tags "GPU" and "Research". */
  lemma GpuResearchTags()
    ensures ParseTags("GPU, Research") == ["GPU", "Research"]
  {
    var a, b := "GPU", " Research";
    assert Trim(a) == a by {
      assert a == [] + a + [];
      TrimPadded([], a, []);
    }
    assert Trim(b) == "Research" by {
      assert b == " " + "Research" + [];
      TrimPadded(" ", "Research", []);
    }
    assert "GPU, Research" == a + [','] + b;
    TagsAroundComma(a, b);
  }



  /** Resources keep the order of the list in every filtered tab: filtering distributes over concatenation. */
  lemma {:induction false} OfTypeAppend(a: seq<Resource>, b: seq<Resource>, t: string)
    ensures OfType(a + b, t) == OfType(a, t) + OfType(b, t)
  {
    if a != [] {
      assert (a + b)[0] == a[0];
      assert (a + b)[1..] == a[1..] + b;
      OfTypeAppend(a[1..], b, t);
    } else {
      assert a + b == b;
    }
  }

  /** Adding a resource puts it at the end of the "all" tab and of its own type's tab, and changes no other tab. */
  lemma TabAfterAdd(rs: seq<Resource>, r: Resource, tab: string)
    ensures TabContents(rs + [r], tab) == TabContents(rs, tab) + (if tab == AllTab || r.resourceType == tab then [r] else [])
  {
    OfTypeAppend(rs, [r], tab);
  }

  /** With ids in position, ids are unique and the lookup by id `k` is the element at index `k - 1`. */
  lemma ResourceById(rs: seq<Resource>, k: int)
    requires IdsInPosition(rs)
    ensures forall i, j :: 0 <= i < |rs| && 0 <= j < |rs| && rs[i].id == rs[j].id ==> i == j
    ensures 1 <= k <= |rs| ==> GetResourceById(rs, k) == Some(rs[k - 1])
    ensures k < 1 || |rs| < k ==> GetResourceById(rs, k) == None
  {
    if 1 <= k <= |rs| {
      assert rs[k - 1].id == k;
    }
  }

  /** Appending the resource with id `length + 1` keeps ids in position. */
  lemma AppendKeepsIds(rs: seq<Resource>, r: Resource)
    requires IdsInPosition(rs) && r.id == |rs| + 1
    ensures IdsInPosition(rs + [r])
  {
  }

  /**
    Appending a request answers the status query for that id with the new status only
    when the id was not requested before: the first matching request wins.
   */
  lemma {:induction false} StatusAfterRequest(reqs: seq<ResourceRequest>, id: int, status: string, k: int)
    ensures GetResourceRequestStatus(reqs + [ResourceRequest(id, status)], k)
         == if k == id && !IsResourceRequested(reqs, id) then Some(status) else GetResourceRequestStatus(reqs, k)
  {
    if reqs != [] {
      assert (reqs + [ResourceRequest(id, status)])[1..] == reqs[1..] + [ResourceRequest(id, status)];
      StatusAfterRequest(reqs[1..], id, status, k);
    }
  }

  /** While every request is pending, a requested resource shows the pending status. */
  lemma RequestedIsPending(reqs: seq<ResourceRequest>, id: int)
    requires AllPending(reqs) && IsResourceRequested(reqs, id)
    ensures GetResourceRequestStatus(reqs, id) == Some(Pending)
  {
  }

  /** The component's state; each method is one event handler. */
  class Panel {
    var resources: seq<Resource>
    var selectedResource: Option<int>
    var showRequestForm: bool
    var showAddResourceForm: bool
    var requestFormData: RequestFormData
    var addResourceFormData: AddResourceFormData
    var requestStep: int
    var showSuccessAlert: bool
    var showAddSuccessAlert: bool
    var requestedResources: seq<ResourceRequest>

    /** The wizard step stays in [1, 3], ids stay in position, and every request is pending. */
    ghost predicate Valid()
      reads this
    {
      && 1 <= requestStep <= 3
      && IdsInPosition(resources)
      && AllPending(requestedResources)
    }

    /** Nothing the add-resource side owns has changed. */
    twostate predicate ResourceSideUnchanged()
      reads this
    {
      && resources == old(resources)
      && selectedResource == old(selectedResource)
      && showAddResourceForm == old(showAddResourceForm)
      && addResourceFormData == old(addResourceFormData)
      && showAddSuccessAlert == old(showAddSuccessAlert)
    }

    /** Nothing the request wizard owns has changed. */
    twostate predicate RequestSideUnchanged()
      reads this
    {
      && showRequestForm == old(showRequestForm)
      && requestFormData == old(requestFormData)
      && requestStep == old(requestStep)
      && showSuccessAlert == old(showSuccessAlert)
      && requestedResources == old(requestedResources)
    }

    constructor ()
      ensures Valid()
      ensures resources == InitialResources() && selectedResource == None
      ensures !showRequestForm && !showAddResourceForm
      ensures requestFormData == EmptyRequestForm() && addResourceFormData == EmptyAddResourceForm()
      ensures requestStep == 1 && !showSuccessAlert && !showAddSuccessAlert
      ensures requestedResources == []
    {
      resources := InitialResources();
      selectedResource := None;
      showRequestForm := false;
      showAddResourceForm := false;
      requestFormData := EmptyRequestForm();
      addResourceFormData := EmptyAddResourceForm();
      requestStep := 1;
      showSuccessAlert := false;
      showAddSuccessAlert := false;
      requestedResources := [];
    }

    /** The card's request button: opens the wizard at step 1 for `resourceId`, keeping the other form fields. */
    method RequestResource(resourceId: int)
      requires Valid()
      modifies this
      ensures Valid()
      ensures requestFormData == old(requestFormData).(resourceId := resourceId)
      ensures showRequestForm && requestStep == 1
      ensures showSuccessAlert == old(showSuccessAlert) && requestedResources == old(requestedResources)
      ensures ResourceSideUnchanged()
    {
      requestFormData := requestFormData.(resourceId := resourceId);
      showRequestForm := true;
      requestStep := 1;
    }

    /** A change event in the request form. */
    method ChangeRequestForm(edit: RequestFormEdit)
      requires Valid()
      modifies this
      ensures Valid()
      ensures requestFormData == ApplyRequestEdit(old(requestFormData), edit)
      ensures showRequestForm == old(showRequestForm) && requestStep == old(requestStep)
      ensures showSuccessAlert == old(showSuccessAlert) && requestedResources == old(requestedResources)
      ensures ResourceSideUnchanged()
    {
      requestFormData := ApplyRequestEdit(requestFormData, edit);
    }

    /**
      The wizard's Continue / Submit button. Before step 3 it advances one step and
      appends nothing; at step 3 it appends one pending request for the form's resource,
      closes the wizard and shows the success alert.
     */
    method SubmitRequestForm()
      requires Valid()
      modifies this
      ensures Valid()
      ensures old(requestStep) < 3 ==>
        && requestStep == old(requestStep) + 1
        && requestedResources == old(requestedResources)
        && showRequestForm == old(showRequestForm)
        && showSuccessAlert == old(showSuccessAlert)
      ensures old(requestStep) == 3 ==>
        && requestedResources == old(requestedResources) + [ResourceRequest(old(requestFormData).resourceId, Pending)]
        && IsResourceRequested(requestedResources, requestFormData.resourceId)
        && !showRequestForm && showSuccessAlert
        && requestStep == 3
      ensures requestFormData == old(requestFormData)
      ensures ResourceSideUnchanged()
    {
      if requestStep < 3 {
        requestStep := requestStep + 1;
      } else {
        requestedResources := requestedResources + [ResourceRequest(requestFormData.resourceId, Pending)];
        showRequestForm := false;
        showSuccessAlert := true;
        assert requestedResources[|requestedResources| - 1].id == requestFormData.resourceId;
      }
    }

    /** Which left-hand button the wizard shows: Back after step 1, Cancel at step 1. */
    function SecondaryButtonShown(): (b: SecondaryButton)
      reads this
      requires Valid()
      ensures b == Back <==> requestStep > 1
    {
      if requestStep > 1 then Back else Cancel
    }

    /** The wizard's left-hand button: Back goes one step back, Cancel only closes the wizard. */
    method PressSecondaryButton()
      requires Valid()
      modifies this
      ensures Valid()
      ensures old(requestStep) > 1 ==> requestStep == old(requestStep) - 1 && showRequestForm == old(showRequestForm)
      ensures old(requestStep) == 1 ==> requestStep == 1 && !showRequestForm
      ensures requestFormData == old(requestFormData)
      ensures showSuccessAlert == old(showSuccessAlert) && requestedResources == old(requestedResources)
      ensures ResourceSideUnchanged()
    {
      if SecondaryButtonShown() == Back {
        requestStep := requestStep - 1;
      } else {
        showRequestForm := false;
      }
    }

    /** The close icon of the wizard: hides it and keeps everything entered. */
    method CloseRequestForm()
      requires Valid()
      modifies this
      ensures Valid()
      ensures !showRequestForm
      ensures requestFormData == old(requestFormData) && requestStep == old(requestStep)
      ensures showSuccessAlert == old(showSuccessAlert) && requestedResources == old(requestedResources)
      ensures ResourceSideUnchanged()
    {
      showRequestForm := false;
    }

    /** The success alert's dismissal timer fires. */
    method DismissSuccessAlert()
      requires Valid()
      modifies this
      ensures Valid()
      ensures !showSuccessAlert
      ensures showRequestForm == old(showRequestForm) && requestFormData == old(requestFormData)
      ensures requestStep == old(requestStep) && requestedResources == old(requestedResources)
      ensures ResourceSideUnchanged()
    {
      showSuccessAlert := false;
    }

    /** Clicking a resource card selects it, or clears the selection when it was the selected one. */
    method ToggleSelected(id: int)
      requires Valid()
      modifies this
      ensures Valid()
      ensures selectedResource == if old(selectedResource) == Some(id) then None else Some(id)
      ensures resources == old(resources) && showAddResourceForm == old(showAddResourceForm)
      ensures addResourceFormData == old(addResourceFormData) && showAddSuccessAlert == old(showAddSuccessAlert)
      ensures RequestSideUnchanged()
    {
      selectedResource := if selectedResource == Some(id) then None else Some(id);
    }

    /** The "Add Resource" button opens the add-resource form. */
    method OpenAddResourceForm()
      requires Valid()
      modifies this
      ensures Valid()
      ensures showAddResourceForm
      ensures resources == old(resources) && selectedResource == old(selectedResource)
      ensures addResourceFormData == old(addResourceFormData) && showAddSuccessAlert == old(showAddSuccessAlert)
      ensures RequestSideUnchanged()
    {
      showAddResourceForm := true;
    }

    /** The add-resource form's close icon and Cancel button hide it and keep what was entered. */
    method CloseAddResourceForm()
      requires Valid()
      modifies this
      ensures Valid()
      ensures !showAddResourceForm
      ensures resources == old(resources) && selectedResource == old(selectedResource)
      ensures addResourceFormData == old(addResourceFormData) && showAddSuccessAlert == old(showAddSuccessAlert)
      ensures RequestSideUnchanged()
    {
      showAddResourceForm := false;
    }

    /** A change event in one of the add-resource form's inputs. */
    method ChangeAddResourceForm(edit: AddResourceFormEdit)
      requires Valid()
      modifies this
      ensures Valid()
      ensures addResourceFormData == ApplyAddResourceEdit(old(addResourceFormData), edit)
      ensures resources == old(resources) && selectedResource == old(selectedResource)
      ensures showAddResourceForm == old(showAddResourceForm) && showAddSuccessAlert == old(showAddSuccessAlert)
      ensures RequestSideUnchanged()
    {
      addResourceFormData := ApplyAddResourceEdit(addResourceFormData, edit);
    }

    /** The type selector of the add-resource form. */
    method ChangeAddResourceType(value: string)
      requires Valid()
      modifies this
      ensures Valid()
      ensures addResourceFormData == old(addResourceFormData).(resourceType := value)
      ensures resources == old(resources) && selectedResource == old(selectedResource)
      ensures showAddResourceForm == old(showAddResourceForm) && showAddSuccessAlert == old(showAddSuccessAlert)
      ensures RequestSideUnchanged()
    {
      addResourceFormData := addResourceFormData.(resourceType := value);
    }

    /**
      Submitting the add-resource form appends one resource built from the form, with
      id `length + 1` and nothing used, leaves the existing ones alone, resets the form,
      closes it and shows the success alert.
     */
    method SubmitAddResourceForm()
      requires Valid()
      modifies this
      ensures Valid()
      ensures |resources| == |old(resources)| + 1 && resources[..|old(resources)|] == old(resources)
      ensures
        var r, f := resources[|old(resources)|], old(addResourceFormData);
        && r.id == |old(resources)| + 1
        && r.name == f.name && r.provider == f.provider && r.resourceType == f.resourceType
        && r.icon == IconFor(f.resourceType)
        && r.availability == f.availability && r.capacity == f.capacity
        && r.usedCapacity == 0
        && r.tags == ParseTags(f.tags)
      ensures GetResourceById(resources, |resources|) == Some(resources[|old(resources)|])
      ensures addResourceFormData == EmptyAddResourceForm()
      ensures !showAddResourceForm && showAddSuccessAlert
      ensures selectedResource == old(selectedResource)
      ensures RequestSideUnchanged()
    {
      var f := addResourceFormData;
      var r := Resource(|resources| + 1, f.name, f.provider, f.resourceType, IconFor(f.resourceType),
                        f.availability, f.capacity, 0, ParseTags(f.tags));
      AppendKeepsIds(resources, r);
      resources := resources + [r];
      ResourceById(resources, |resources|);
      addResourceFormData := EmptyAddResourceForm();
      showAddResourceForm := false;
      showAddSuccessAlert := true;
    }

    /** The add-success alert's dismissal timer fires. */
    method DismissAddSuccessAlert()
      requires Valid()
      modifies this
      ensures Valid()
      ensures !showAddSuccessAlert
      ensures resources == old(resources) && selectedResource == old(selectedResource)
      ensures showAddResourceForm == old(showAddResourceForm) && addResourceFormData == old(addResourceFormData)
      ensures RequestSideUnchanged()
    {
      showAddSuccessAlert := false;
    }
  }

  /**
    A walk through the wizard on a fresh panel, with one Back on the way: exactly one
    pending request for the chosen resource, the wizard closed, its status pending.
   */
  method RequestWalkthrough(id: int) returns (requests: seq<ResourceRequest>, formOpen: bool, status: Option<string>)
    ensures requests == [ResourceRequest(id, Pending)]
    ensures !formOpen
    ensures status == Some(Pending)
  {
    var p := new Panel();
    p.RequestResource(id);
    p.SubmitRequestForm();
    p.PressSecondaryButton();
    p.SubmitRequestForm();
    p.SubmitRequestForm();
    p.SubmitRequestForm();
    requests, formOpen := p.requestedResources, p.showRequestForm;
    status := GetResourceRequestStatus(requests, id);
  }

  /**
    Adding a computing resource tagged `tags` to a fresh panel: id 5, a server icon,
    nothing used, the parsed tags, and the lookup by id 5 finds it.
   */
  method AddResourceWalkthrough(tags: string) returns (added: Resource, found: Option<Resource>)
    ensures added.id == 5 && added.icon == Server && added.usedCapacity == 0
    ensures added.tags == ParseTags(tags) && |added.tags| == Count(tags, ',') + 1
    ensures found == Some(added)
  {
    var p := new Panel();
    p.OpenAddResourceForm();
    p.ChangeAddResourceType("computing");
    p.ChangeAddResourceForm(SetName("GPU Rack"));
    p.ChangeAddResourceForm(SetTags(tags));
    p.SubmitAddResourceForm();
    added := p.resources[4];
    found := GetResourceById(p.resources, 5);
  }
}
