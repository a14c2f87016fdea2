/** The navigation and assistant-builder flags of one session, the five events that change
    them, and the invariant that an assistant is never both being created and created. */
module LayoutModel {
  import opened Base
  import opened Text

  /** The value of the session's layout fields. */
  datatype Layout = Layout(
    currentPage: string,
    showAssistantUpload: bool,
    assistantName: string,
    assistantDescription: string,
    creatingAssistant: bool,
    assistantCreated: bool,
    assistantDialogOpen: bool,
    assistantDialogMessage: string)

  /** The events that change the layout: the five handlers, and the setters the framework
      generates for the builder's two text fields, which the inputs call on every change. */
  datatype LayoutEvent =
    | SetNameEvent(name: string)
    | SetDescriptionEvent(description: string)
    | SetPageEvent(page: string)
    | OpenUploadEvent
    | SubmitEvent(form: FormData)
    | FinishEvent
    | CloseDialogEvent

  const InitialLayout := Layout("dashboard", false, "", "", false, false, false, "")

  /** The page whose visit keeps the builder panel and its status. */
  const ProjectsPage := "projects"

  const InProgressMessage := "Assistant creation in progress..."

  const CreatedMessage := "Assistant created successfully!"

  /** The creation status is consistent: not in progress and finished at once. */
  predicate NotBoth(l: Layout) {
    !(l.creatingAssistant && l.assistantCreated)
  }

  /** One event applied to the layout. Every event keeps `NotBoth`. Opening the builder,
      submitting, finishing and leaving for a page other than "projects" establish it whatever
      the flags were before; the field setters, closing the dialog and visiting "projects"
      leave both status flags as they were. */
  function Step(l: Layout, e: LayoutEvent): (r: Layout)
    ensures NotBoth(l) ==> NotBoth(r)
    ensures (e.OpenUploadEvent? || e.SubmitEvent? || e.FinishEvent?
             || (e.SetPageEvent? && e.page != ProjectsPage)) ==> NotBoth(r)
    ensures (e.SetNameEvent? || e.SetDescriptionEvent? || e.CloseDialogEvent?
             || (e.SetPageEvent? && e.page == ProjectsPage)) ==>
      r.creatingAssistant == l.creatingAssistant && r.assistantCreated == l.assistantCreated
  {
    match e
    case SetNameEvent(name) =>
      l.(assistantName := name)
    case SetDescriptionEvent(description) =>
      l.(assistantDescription := description)
    case SetPageEvent(page) =>
      if page != ProjectsPage then
        l.(currentPage := page, showAssistantUpload := false,
           creatingAssistant := false, assistantCreated := false)
      else
        l.(currentPage := page)
    case OpenUploadEvent =>
      l.(showAssistantUpload := true, creatingAssistant := false, assistantCreated := false,
         assistantDialogOpen := false, assistantDialogMessage := "")
    case SubmitEvent(form) =>
      l.(assistantName := Strip(Lookup(form, "assistant_name", "")),
         assistantDescription := Strip(Lookup(form, "assistant_description", "")),
         creatingAssistant := true, assistantCreated := false,
         assistantDialogOpen := true, assistantDialogMessage := InProgressMessage)
    case FinishEvent =>
      l.(creatingAssistant := false, assistantCreated := true,
         assistantDialogMessage := CreatedMessage, showAssistantUpload := false)
    case CloseDialogEvent =>
      l.(assistantDialogOpen := false)
  }

  /** A sequence of events applied in order. */
  function Run(l: Layout, es: seq<LayoutEvent>): Layout
    decreases |es|
  {
    if es == [] then l else Run(Step(l, es[0]), es[1..])
  }

  lemma {:induction false} RunKeepsNotBoth(l: Layout, es: seq<LayoutEvent>)
    requires NotBoth(l)
    ensures NotBoth(Run(l, es))
    decreases |es|
  {
    if es != [] {
      RunKeepsNotBoth(Step(l, es[0]), es[1..]);
    }
  }

  /** No sequence of events from the initial layout makes `creating_assistant` and
      `assistant_created` true together. */
  lemma ReachableNotBoth(es: seq<LayoutEvent>)
    ensures NotBoth(Run(InitialLayout, es))
  {
    RunKeepsNotBoth(InitialLayout, es);
  }

  /** Submitting the builder form and then finishing creation leaves the dialog open with
      the success message, the form hidden, and the stripped name and description stored. */
  lemma SubmitThenFinish(l: Layout, form: FormData)
    ensures var r := Run(l, [SubmitEvent(form), FinishEvent]);
      r.assistantDialogOpen && !r.showAssistantUpload
      && r.assistantCreated && !r.creatingAssistant
      && r.assistantDialogMessage == CreatedMessage
      && r.assistantName == Strip(Lookup(form, "assistant_name", ""))
      && r.assistantDescription == Strip(Lookup(form, "assistant_description", ""))
      && r.currentPage == l.currentPage
  {
    var es := [SubmitEvent(form), FinishEvent];
    assert es[1..] == [FinishEvent];
    assert [FinishEvent][1..] == [];
  }

  /** Opening the builder resets the status and dialog fields whatever came before, and keeps
      the stored name, description and page. */
  lemma OpenUploadResets(l: Layout)
    ensures var r := Step(l, OpenUploadEvent);
      r.showAssistantUpload && !r.creatingAssistant && !r.assistantCreated
      && !r.assistantDialogOpen && r.assistantDialogMessage == ""
      && r.assistantName == l.assistantName && r.assistantDescription == l.assistantDescription
      && r.currentPage == l.currentPage
  {
  }

  /** The `LayoutState` of one session. Each handler runs atomically. */
  class LayoutState {
    var currentPage: string
    var showAssistantUpload: bool
    var assistantName: string
    var assistantDescription: string
    var creatingAssistant: bool
    var assistantCreated: bool
    var assistantDialogOpen: bool
    var assistantDialogMessage: string

    function View(): Layout
      reads this
    {
      Layout(currentPage, showAssistantUpload, assistantName, assistantDescription,
             creatingAssistant, assistantCreated, assistantDialogOpen, assistantDialogMessage)
    }

    constructor ()
      ensures View() == InitialLayout
    {
      currentPage := "dashboard";
      showAssistantUpload := false;
      assistantName := "";
      assistantDescription := "";
      creatingAssistant := false;
      assistantCreated := false;
      assistantDialogOpen := false;
      assistantDialogMessage := "";
    }

    /** `set_assistant_name(name)`, the framework's generated setter: store the input's text as
        typed, unstripped, and change nothing else. */
    method SetAssistantName(name: string)
      modifies this
      ensures View() == old(View()).(assistantName := name)
      ensures View() == Step(old(View()), SetNameEvent(name))
    {
      assistantName := name;
    }

    /** `set_assistant_description(description)`, the framework's generated setter: store the
        text as typed, unstripped, and change nothing else. */
    method SetAssistantDescription(description: string)
      modifies this
      ensures View() == old(View()).(assistantDescription := description)
      ensures View() == Step(old(View()), SetDescriptionEvent(description))
    {
      assistantDescription := description;
    }

    /** `set_page(page)`: navigate; leaving for any page but "projects" hides the builder
        panel and resets its status. */
    method SetPage(page: string)
      modifies this
      ensures currentPage == page
      ensures page != ProjectsPage ==>
        View() == old(View()).(currentPage := page, showAssistantUpload := false,
                               creatingAssistant := false, assistantCreated := false)
      ensures page == ProjectsPage ==> View() == old(View()).(currentPage := page)
      ensures View() == Step(old(View()), SetPageEvent(page))
    {
      currentPage := page;
      if page != ProjectsPage {
        showAssistantUpload := false;
        creatingAssistant := false;
        assistantCreated := false;
      }
    }

    /** `open_assistant_upload`: show the builder form with a cleared status and dialog. */
    method OpenAssistantUpload()
      modifies this
      ensures View() == old(View()).(showAssistantUpload := true, creatingAssistant := false,
                                     assistantCreated := false, assistantDialogOpen := false,
                                     assistantDialogMessage := "")
      ensures View() == Step(old(View()), OpenUploadEvent)
    {
      showAssistantUpload := true;
      creatingAssistant := false;
      assistantCreated := false;
      assistantDialogOpen := false;
      assistantDialogMessage := "";
    }

    /** `submit_assistant(form)`: store the stripped name and description, mark creation in
        progress and open the progress dialog; `finish_assistant_creation` is scheduled next. */
    method SubmitAssistant(form: FormData)
      modifies this
      ensures assistantName == Strip(Lookup(form, "assistant_name", ""))
      ensures assistantDescription == Strip(Lookup(form, "assistant_description", ""))
      ensures creatingAssistant && !assistantCreated
      ensures assistantDialogOpen && assistantDialogMessage == InProgressMessage
      ensures currentPage == old(currentPage) && showAssistantUpload == old(showAssistantUpload)
      ensures View() == Step(old(View()), SubmitEvent(form))
    {
      ghost var before := View();
      var name := Strip(Lookup(form, "assistant_name", ""));
      var description := Strip(Lookup(form, "assistant_description", ""));
      assistantName := name;
      assistantDescription := description;
      creatingAssistant := true;
      assistantCreated := false;
      assistantDialogOpen := true;
      assistantDialogMessage := InProgressMessage;
      assert View() == before.(assistantName := name, assistantDescription := description,
                               creatingAssistant := true, assistantCreated := false,
                               assistantDialogOpen := true, assistantDialogMessage := InProgressMessage);
    }

    /** `finish_assistant_creation`, after its simulated delay: mark the assistant created,
        show the success message and hide the form; the dialog stays as it is. */
    method FinishAssistantCreation()
      modifies this
      ensures View() == old(View()).(creatingAssistant := false, assistantCreated := true,
                                     assistantDialogMessage := CreatedMessage,
                                     showAssistantUpload := false)
      ensures View() == Step(old(View()), FinishEvent)
    {
      creatingAssistant := false;
      assistantCreated := true;
      assistantDialogMessage := CreatedMessage;
      showAssistantUpload := false;
    }

    /** `close_assistant_dialog`: close the dialog and change nothing else. */
    method CloseAssistantDialog()
      modifies this
      ensures View() == old(View()).(assistantDialogOpen := false)
      ensures View() == Step(old(View()), CloseDialogEvent)
    {
      assistantDialogOpen := false;
    }
  }
}
