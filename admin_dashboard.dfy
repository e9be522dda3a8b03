/**
 * The administration dashboard's state and its submit and delete handlers.
 * Each handler checks its form, sends one request to a content route and,
 * when the route answers with success, reconciles the matching list with
 * the answer and resets the form. The route's answer is a parameter.
 */
module AdminDashboard {

  import opened Common
  import opened Records
  import opened AdminForms

  /** A notification shown to the administrator. */
  datatype Toast = Info(message: string) | Alert(message: string)

  /**
   * What the page reads from a request's answer: the item it keeps, or the
   * error it carried. It is the page's reading, not the route's reply body.
   */
  datatype Answer<T> = ServerOk(value: T) | ServerError(message: Option<string>)

  /** A row of the subscriber list as the page builds it. */
  datatype EmailRow = EmailRow(email: string, createdAt: Timestamp)

  datatype ProjectForm = ProjectForm(title: string, description: string, image: FormValue, softwares: seq<string>)
  datatype ExperienceForm = ExperienceForm(name: string, subject: string, image: FormValue, verified: bool)
  datatype MediaForm = MediaForm(title: string, description: string, src: FormValue, category: string)
  datatype VitaeForm = VitaeForm(name: string, file: FormValue)

  const EmptyProjectForm := ProjectForm("", "", Missing, [])
  const EmptyExperienceForm := ExperienceForm("", "", Text(""), false)
  /** The media form after a save; its first state has an empty category instead. */
  const ResetMediaForm := MediaForm("", "", Text(""), "general")
  const EmptyVitaeForm := VitaeForm("", Text(""))

  datatype Kind = ProjectKind | ExperienceKind | MediaKind | VitaeKind | EmailKind | MessageKind
  datatype DeleteTarget = DeleteTarget(id: Id, kind: Kind, title: string)

  function KindName(k: Kind): string {
    match k
    case ProjectKind => "project"
    case ExperienceKind => "experience"
    case MediaKind => "media"
    case VitaeKind => "vitae"
    case EmailKind => "email"
    case MessageKind => "message"
  }

  datatype Board = Board(
    projects: seq<Keyed<Project>>,
    experiences: seq<Keyed<Experience>>,
    media: seq<Keyed<Media>>,
    vitae: seq<Keyed<Vitae>>,
    emails: seq<Keyed<EmailRow>>,
    messages: seq<Keyed<Message>>,
    projectForm: ProjectForm,
    experienceForm: ExperienceForm,
    mediaForm: MediaForm,
    vitaeForm: VitaeForm,
    emailForm: string,
    editingId: Option<Id>,
    isLoading: bool,
    deleteConfirm: Option<DeleteTarget>)

  /** A handler's new state and the notification it shows, if any. */
  datatype Step = Step(board: Board, toast: Option<Toast>)

  /** The six lists are those of `b`. */
  predicate SameLists(a: Board, b: Board) {
    a.projects == b.projects && a.experiences == b.experiences && a.media == b.media
    && a.vitae == b.vitae && a.emails == b.emails && a.messages == b.messages
  }

  const SaveProjectFailed := "Échec de l'enregistrement du projet"
  const SaveExperienceFailed := "Échec de l'enregistrement de l'expérience"
  const SaveMediaFailed := "Échec de l'enregistrement du média"
  const SaveVitaeFailed := "Échec de l'enregistrement du CV"
  const SaveEmailFailed := "Échec de l'enregistrement de l'email"

  // ---------------------------------------------------------------- submit handlers

  /**
   * The project form. The check runs before the loading flag is raised.
   * An edited project keeps the id being edited.
   */
  function ProjectSubmit(b: Board, answer: Answer<Keyed<Project>>): (st: Step)
    ensures st.toast.Some?
    ensures CheckProject(b.projectForm.title, b.projectForm.description).None? || st.board == b
  {
    var f := b.projectForm;
    match CheckProject(f.title, f.description)
    case Some(msg) => Step(b, Some(Alert(msg)))
    case None => ProjectAnswered(b, answer)
  }

  /** The project form once its request is sent: the loading flag ends lowered. */
  function ProjectAnswered(b: Board, answer: Answer<Keyed<Project>>): (st: Step)
    ensures st.toast.Some? && !st.board.isLoading
  {
    match answer
    case ServerError(m) => Step(b.(isLoading := false), Some(Alert(OrElse(m, SaveProjectFailed))))
    case ServerOk(x) =>
      var item := if b.editingId.Some? then Keyed(b.editingId.value, x.item) else x;
      Step(b.(projects := Reconciled(b.projects, b.editingId, item), projectForm := EmptyProjectForm,
              editingId := None, isLoading := false),
           Some(Info(if b.editingId.Some? then "Projet mis à jour" else "Projet ajouté")))
  }

  function ExperienceSubmit(b: Board, answer: Answer<Keyed<Experience>>): (st: Step)
    ensures st.toast.Some? && !st.board.isLoading
  {
    match CheckExperienceImage(b.experienceForm.image)
    case Some(msg) => Step(b.(isLoading := false), Some(Alert(msg)))
    case None => ExperienceAnswered(b, answer)
  }

  /** The experience form once its request is sent. */
  function ExperienceAnswered(b: Board, answer: Answer<Keyed<Experience>>): (st: Step)
    ensures st.toast.Some? && !st.board.isLoading
  {
    match answer
    case ServerError(_) => Step(b.(isLoading := false), Some(Alert(SaveExperienceFailed)))
    case ServerOk(x) =>
      Step(b.(experiences := Reconciled(b.experiences, b.editingId, x), experienceForm := EmptyExperienceForm,
              editingId := None, isLoading := false),
           Some(Info(if b.editingId.Some? then "Expérience mise à jour avec succès"
                     else "Expérience ajoutée avec succès")))
  }

  function MediaSubmit(b: Board, answer: Answer<Keyed<Media>>): (st: Step)
    ensures st.toast.Some? && !st.board.isLoading
  {
    var f := b.mediaForm;
    match CheckMedia(f.title, b.editingId.Some?, f.src)
    case Some(msg) => Step(b.(isLoading := false), Some(Alert(msg)))
    case None => MediaAnswered(b, answer)
  }

  /** The media form once its request is sent. */
  function MediaAnswered(b: Board, answer: Answer<Keyed<Media>>): (st: Step)
    ensures st.toast.Some? && !st.board.isLoading
  {
    match answer
    case ServerError(m) => Step(b.(isLoading := false), Some(Alert(OrElse(m, SaveMediaFailed))))
    case ServerOk(x) =>
      Step(b.(media := Reconciled(b.media, b.editingId, x), mediaForm := ResetMediaForm,
              editingId := None, isLoading := false),
           Some(Info(if b.editingId.Some? then "Média mis à jour avec succès" else "Média ajouté avec succès")))
  }

  function VitaeSubmit(b: Board, answer: Answer<Keyed<Vitae>>): (st: Step)
    ensures st.toast.Some? && !st.board.isLoading
  {
    match CheckVitaeFile(b.vitaeForm.file)
    case Some(msg) => Step(b.(isLoading := false), Some(Alert(msg)))
    case None => VitaeAnswered(b, answer)
  }

  /** The CV form once its request is sent. */
  function VitaeAnswered(b: Board, answer: Answer<Keyed<Vitae>>): (st: Step)
    ensures st.toast.Some? && !st.board.isLoading
  {
    match answer
    case ServerError(m) => Step(b.(isLoading := false), Some(Alert(OrElse(m, SaveVitaeFailed))))
    case ServerOk(x) =>
      Step(b.(vitae := Reconciled(b.vitae, b.editingId, x), vitaeForm := EmptyVitaeForm,
              editingId := None, isLoading := false),
           Some(Info(if b.editingId.Some? then "CV mis à jour avec succès" else "CV ajouté avec succès")))
  }

  /**
   * The e-mail form; a new row carries the id in the page's answer, an
   * edited one the id being edited, and both the time of the save.
   */
  function EmailSubmit(b: Board, answer: Answer<Id>, now: Timestamp): (st: Step)
    ensures st.toast.Some? && !st.board.isLoading
  {
    match CheckEmail(b.emailForm)
    case Some(msg) => Step(b.(isLoading := false), Some(Alert(msg)))
    case None => EmailAnswered(b, answer, now)
  }

  /** The e-mail form once its request is sent. */
  function EmailAnswered(b: Board, answer: Answer<Id>, now: Timestamp): (st: Step)
    ensures st.toast.Some? && !st.board.isLoading
  {
    match answer
    case ServerError(m) => Step(b.(isLoading := false), Some(Alert(OrElse(m, SaveEmailFailed))))
    case ServerOk(newId) =>
      var row := Keyed(if b.editingId.Some? then b.editingId.value else newId, EmailRow(b.emailForm, now));
      Step(b.(emails := Reconciled(b.emails, b.editingId, row), emailForm := "",
              editingId := None, isLoading := false),
           Some(Info(if b.editingId.Some? then "Email mis à jour avec succès" else "Email ajouté avec succès")))
  }

  // ---------------------------------------------------------------- deletion

  /** A delete button only records what is to be confirmed. */
  function RequestDelete(b: Board, id: Id, kind: Kind, title: string): (r: Board)
    ensures r.deleteConfirm == Some(DeleteTarget(id, kind, title))
  {
    b.(deleteConfirm := Some(DeleteTarget(id, kind, title)))
  }

  /** `b` with the items carrying `id` dropped from the list of `kind`. */
  function WithoutItem(b: Board, kind: Kind, id: Id): Board {
    match kind
    case ProjectKind => b.(projects := RemoveWhere(b.projects, id))
    case ExperienceKind => b.(experiences := RemoveWhere(b.experiences, id))
    case MediaKind => b.(media := RemoveWhere(b.media, id))
    case VitaeKind => b.(vitae := RemoveWhere(b.vitae, id))
    case EmailKind => b.(emails := RemoveWhere(b.emails, id))
    case MessageKind => b.(messages := RemoveWhere(b.messages, id))
  }

  /**
   * `confirmDelete`: nothing without a pending confirmation; otherwise the
   * request, then the list of that kind filtered when it succeeded, and in
   * every case the confirmation cleared and the loading flag lowered.
   */
  function ConfirmDelete(b: Board, deleted: bool): (st: Step)
    ensures b.deleteConfirm.Some? ==> st.board.deleteConfirm.None? && !st.board.isLoading
    ensures b.deleteConfirm.None? ==> st == Step(b, None)
  {
    match b.deleteConfirm
    case None => Step(b, None)
    case Some(t) =>
      var cleared := b.(isLoading := false, deleteConfirm := None);
      if deleted then Step(WithoutItem(cleared, t.kind, t.id), Some(Info(DeletedMessage(t.kind))))
      else Step(cleared, Some(Alert("Échec de la suppression de " + KindName(t.kind))))
  }

  function DeletedMessage(k: Kind): string {
    match k
    case ProjectKind => "Projet supprimé avec succès"
    case ExperienceKind => "Expérience supprimée avec succès"
    case MediaKind => "Média supprimé avec succès"
    case VitaeKind => "CV supprimé avec succès"
    case EmailKind => "Email supprimé avec succès"
    case MessageKind => "Message supprimé avec succès"
  }

  // ---------------------------------------------------------------- software selection

  /** A check box of the project form changes its software list and nothing else. */
  function SoftwareChecked(b: Board, software: string, checked: bool): (r: Board)
    ensures r.projectForm.softwares == ToggleSoftware(b.projectForm.softwares, software, checked)
    ensures r.(projectForm := b.projectForm) == b
    ensures r.projectForm.(softwares := b.projectForm.softwares) == b.projectForm
  {
    b.(projectForm := b.projectForm.(softwares := ToggleSoftware(b.projectForm.softwares, software, checked)))
  }

  function ChipRemoved(b: Board, software: string): (r: Board)
    ensures r == SoftwareChecked(b, software, false)
  {
    b.(projectForm := b.projectForm.(softwares := RemoveChip(b.projectForm.softwares, software)))
  }

  // ---------------------------------------------------------------- properties

  /**
   * A project form whose title or description trims to empty is refused
   * before anything is sent: the route's answer plays no part and nothing
   * changes, not even the loading flag.
   */
  lemma BlankProjectSendsNothing(b: Board, answer: Answer<Keyed<Project>>, answer': Answer<Keyed<Project>>)
    requires CheckProject(b.projectForm.title, b.projectForm.description).Some?
    ensures ProjectSubmit(b, answer) == ProjectSubmit(b, answer')
    ensures ProjectSubmit(b, answer) == Step(b, Some(Alert(TitleAndDescriptionRequired)))
  {
  }

  /**
   * A saved edit replaces only the items with the edited id and keeps the
   * length of the list; a saved creation appends the new item at the end.
   * The other lists are untouched and editing ends.
   */
  lemma ProjectSaveReconciles(b: Board, x: Keyed<Project>)
    requires CheckProject(b.projectForm.title, b.projectForm.description).None?
    ensures var r := ProjectSubmit(b, ServerOk(x)).board;
      && r.experiences == b.experiences && r.media == b.media && r.vitae == b.vitae
      && r.emails == b.emails && r.messages == b.messages
      && r.editingId.None? && !r.isLoading && r.projectForm == EmptyProjectForm
      && (b.editingId.Some? ==>
            var e := b.editingId.value;
            && |r.projects| == |b.projects|
            && forall i :: 0 <= i < |b.projects| ==>
                 r.projects[i] == (if b.projects[i].id == e then Keyed(e, x.item) else b.projects[i]))
      && (b.editingId.None? ==> r.projects == b.projects + [x])
  {
  }

  /** The same for experiences: the answer replaces the edited item or is appended. */
  lemma ExperienceSaveReconciles(b: Board, x: Keyed<Experience>)
    requires CheckExperienceImage(b.experienceForm.image).None?
    ensures var r := ExperienceSubmit(b, ServerOk(x)).board;
      && r.projects == b.projects && r.media == b.media && r.vitae == b.vitae
      && r.emails == b.emails && r.messages == b.messages
      && r.editingId.None? && r.experienceForm == EmptyExperienceForm
      && (b.editingId.Some? ==>
            && |r.experiences| == |b.experiences|
            && forall i :: 0 <= i < |b.experiences| ==>
                 r.experiences[i] == (if b.experiences[i].id == b.editingId.value then x else b.experiences[i]))
      && (b.editingId.None? ==> r.experiences == b.experiences + [x])
  {
  }

  /** The same for videos. */
  lemma MediaSaveReconciles(b: Board, x: Keyed<Media>)
    requires CheckMedia(b.mediaForm.title, b.editingId.Some?, b.mediaForm.src).None?
    ensures var r := MediaSubmit(b, ServerOk(x)).board;
      && r.projects == b.projects && r.experiences == b.experiences && r.vitae == b.vitae
      && r.emails == b.emails && r.messages == b.messages
      && r.editingId.None? && r.mediaForm == ResetMediaForm
      && (b.editingId.Some? ==>
            && |r.media| == |b.media|
            && forall i :: 0 <= i < |b.media| ==>
                 r.media[i] == (if b.media[i].id == b.editingId.value then x else b.media[i]))
      && (b.editingId.None? ==> r.media == b.media + [x])
  {
  }

  /** The same for CVs. */
  lemma VitaeSaveReconciles(b: Board, x: Keyed<Vitae>)
    requires CheckVitaeFile(b.vitaeForm.file).None?
    ensures var r := VitaeSubmit(b, ServerOk(x)).board;
      && r.projects == b.projects && r.experiences == b.experiences && r.media == b.media
      && r.emails == b.emails && r.messages == b.messages
      && r.editingId.None? && r.vitaeForm == EmptyVitaeForm
      && (b.editingId.Some? ==>
            && |r.vitae| == |b.vitae|
            && forall i :: 0 <= i < |b.vitae| ==>
                 r.vitae[i] == (if b.vitae[i].id == b.editingId.value then x else b.vitae[i]))
      && (b.editingId.None? ==> r.vitae == b.vitae + [x])
  {
  }

  /** A saved address: an edit rewrites the row of the edited id, a creation appends a row with the new id. */
  lemma EmailSaveReconciles(b: Board, newId: Id, now: Timestamp)
    requires CheckEmail(b.emailForm).None?
    ensures var r := EmailSubmit(b, ServerOk(newId), now).board;
      && r.projects == b.projects && r.experiences == b.experiences && r.media == b.media
      && r.vitae == b.vitae && r.messages == b.messages
      && r.editingId.None? && r.emailForm == ""
      && (b.editingId.Some? ==>
            var e := b.editingId.value;
            && |r.emails| == |b.emails|
            && forall i :: 0 <= i < |b.emails| ==>
                 r.emails[i] == (if b.emails[i].id == e then Keyed(e, EmailRow(b.emailForm, now)) else b.emails[i]))
      && (b.editingId.None? ==> r.emails == b.emails + [Keyed(newId, EmailRow(b.emailForm, now))])
  {
  }

  /**
   * A check that fails, or a route that answers with an error, leaves the
   * lists, the forms and the item being edited as they were; only the
   * loading flag is lowered (the project form does not raise it before its
   * check).
   */
  lemma FailedProjectSubmitKeepsState(b: Board, m: Option<string>)
    ensures var r := ProjectSubmit(b, ServerError(m)).board; r == b.(isLoading := false) || r == b
  {
  }

  lemma FailedExperienceSubmitKeepsState(b: Board, m: Option<string>)
    ensures ExperienceSubmit(b, ServerError(m)).board == b.(isLoading := false)
  {
  }

  lemma FailedMediaSubmitKeepsState(b: Board, m: Option<string>)
    ensures MediaSubmit(b, ServerError(m)).board == b.(isLoading := false)
  {
  }

  lemma FailedVitaeSubmitKeepsState(b: Board, m: Option<string>)
    ensures VitaeSubmit(b, ServerError(m)).board == b.(isLoading := false)
  {
  }

  lemma FailedEmailSubmitKeepsState(b: Board, m: Option<string>, now: Timestamp)
    ensures EmailSubmit(b, ServerError(m), now).board == b.(isLoading := false)
  {
  }

  /**
   * Confirming a deletion that succeeds drops exactly the items with that id
   * from the list of that kind (the others keep their order) and no other
   * list changes; one that fails changes no list.
   */
  lemma ConfirmDeleteRemovesOnlyTarget(b: Board, deleted: bool)
    requires b.deleteConfirm.Some?
    ensures var t := b.deleteConfirm.value;
      var r := ConfirmDelete(b, deleted).board;
      && (!deleted ==> SameLists(r, b))
      && (deleted ==>
            && (t.kind == ProjectKind ==> (forall y :: y in r.projects <==> y in b.projects && y.id != t.id))
            && (t.kind != ProjectKind ==> r.projects == b.projects)
            && (t.kind == ExperienceKind ==> (forall y :: y in r.experiences <==> y in b.experiences && y.id != t.id))
            && (t.kind != ExperienceKind ==> r.experiences == b.experiences)
            && (t.kind == MediaKind ==> (forall y :: y in r.media <==> y in b.media && y.id != t.id))
            && (t.kind != MediaKind ==> r.media == b.media)
            && (t.kind == VitaeKind ==> (forall y :: y in r.vitae <==> y in b.vitae && y.id != t.id))
            && (t.kind != VitaeKind ==> r.vitae == b.vitae)
            && (t.kind == EmailKind ==> (forall y :: y in r.emails <==> y in b.emails && y.id != t.id))
            && (t.kind != EmailKind ==> r.emails == b.emails)
            && (t.kind == MessageKind ==> (forall y :: y in r.messages <==> y in b.messages && y.id != t.id))
            && (t.kind != MessageKind ==> r.messages == b.messages))
  {
  }

  // ---------------------------------------------------------------- the component

  /** The dashboard component and its state hooks. */
  class Dashboard {
    var projects: seq<Keyed<Project>>
    var experiences: seq<Keyed<Experience>>
    var media: seq<Keyed<Media>>
    var vitae: seq<Keyed<Vitae>>
    var emails: seq<Keyed<EmailRow>>
    var messages: seq<Keyed<Message>>
    var projectForm: ProjectForm
    var experienceForm: ExperienceForm
    var mediaForm: MediaForm
    var vitaeForm: VitaeForm
    var emailForm: string
    var editingId: Option<Id>
    var isLoading: bool
    var deleteConfirm: Option<DeleteTarget>

    function State(): Board
      reads this
    {
      Board(projects, experiences, media, vitae, emails, messages, projectForm, experienceForm,
            mediaForm, vitaeForm, emailForm, editingId, isLoading, deleteConfirm)
    }

    /** Empty lists and forms, nothing being edited or deleted. */
    constructor ()
      ensures State() == Board([], [], [], [], [], [], EmptyProjectForm, EmptyExperienceForm,
                               MediaForm("", "", Text(""), ""), EmptyVitaeForm, "", None, false, None)
    {
      projects, experiences, media, vitae, emails, messages := [], [], [], [], [], [];
      projectForm, experienceForm := EmptyProjectForm, EmptyExperienceForm;
      mediaForm, vitaeForm, emailForm := MediaForm("", "", Text(""), ""), EmptyVitaeForm, "";
      editingId, isLoading, deleteConfirm := None, false, None;
    }

    method SubmitProject(answer: Answer<Keyed<Project>>) returns (toast: Option<Toast>)
      modifies this
      ensures var st := ProjectSubmit(old(State()), answer); State() == st.board && toast == st.toast
    {
      var check := CheckProject(projectForm.title, projectForm.description);
      if check.Some? {
        return Some(Alert(check.value));
      }
      toast := SendProject(answer);
    }

    /** Raises the loading flag, applies the route's answer and lowers the flag. */
    method SendProject(answer: Answer<Keyed<Project>>) returns (toast: Option<Toast>)
      modifies this
      ensures var st := ProjectAnswered(old(State()), answer); State() == st.board && toast == st.toast
    {
      isLoading := true;
      match answer {
        case ServerError(m) =>
          toast := Some(Alert(OrElse(m, SaveProjectFailed)));
        case ServerOk(x) =>
          if editingId.Some? {
            projects := ReplaceWhere(projects, editingId.value, Keyed(editingId.value, x.item));
            toast := Some(Info("Projet mis à jour"));
          } else {
            projects := projects + [x];
            toast := Some(Info("Projet ajouté"));
          }
          projectForm := EmptyProjectForm;
          editingId := None;
      }
      isLoading := false;
    }

    method SubmitExperience(answer: Answer<Keyed<Experience>>) returns (toast: Option<Toast>)
      modifies this
      ensures var st := ExperienceSubmit(old(State()), answer); State() == st.board && toast == st.toast
    {
      isLoading := true;
      var check := CheckExperienceImage(experienceForm.image);
      if check.Some? {
        isLoading := false;
        return Some(Alert(check.value));
      }
      toast := SendExperience(answer);
    }

    /** Applies the experience route's answer and lowers the loading flag. */
    method SendExperience(answer: Answer<Keyed<Experience>>) returns (toast: Option<Toast>)
      modifies this
      ensures var st := ExperienceAnswered(old(State()), answer); State() == st.board && toast == st.toast
    {
      match answer {
        case ServerError(_) =>
          toast := Some(Alert(SaveExperienceFailed));
        case ServerOk(x) =>
          if editingId.Some? {
            experiences := ReplaceWhere(experiences, editingId.value, x);
            toast := Some(Info("Expérience mise à jour avec succès"));
            editingId := None;
          } else {
            experiences := experiences + [x];
            toast := Some(Info("Expérience ajoutée avec succès"));
          }
          experienceForm := EmptyExperienceForm;
      }
      isLoading := false;
    }

    method SubmitMedia(answer: Answer<Keyed<Media>>) returns (toast: Option<Toast>)
      modifies this
      ensures var st := MediaSubmit(old(State()), answer); State() == st.board && toast == st.toast
    {
      isLoading := true;
      var check := CheckMedia(mediaForm.title, editingId.Some?, mediaForm.src);
      if check.Some? {
        isLoading := false;
        return Some(Alert(check.value));
      }
      toast := SendMedia(answer);
    }

    /** Applies the media route's answer and lowers the loading flag. */
    method SendMedia(answer: Answer<Keyed<Media>>) returns (toast: Option<Toast>)
      modifies this
      ensures var st := MediaAnswered(old(State()), answer); State() == st.board && toast == st.toast
    {
      match answer {
        case ServerError(m) =>
          toast := Some(Alert(OrElse(m, SaveMediaFailed)));
        case ServerOk(x) =>
          if editingId.Some? {
            media, editingId := ReplaceWhere(media, editingId.value, x), None;
            toast := Some(Info("Média mis à jour avec succès"));
          } else {
            media := media + [x];
            toast := Some(Info("Média ajouté avec succès"));
          }
          mediaForm := ResetMediaForm;
      }
      isLoading := false;
    }

    method SubmitVitae(answer: Answer<Keyed<Vitae>>) returns (toast: Option<Toast>)
      modifies this
      ensures var st := VitaeSubmit(old(State()), answer); State() == st.board && toast == st.toast
    {
      isLoading := true;
      var check := CheckVitaeFile(vitaeForm.file);
      if check.Some? {
        isLoading := false;
        return Some(Alert(check.value));
      }
      toast := SendVitae(answer);
    }

    /** Applies the CV route's answer and lowers the loading flag. */
    method SendVitae(answer: Answer<Keyed<Vitae>>) returns (toast: Option<Toast>)
      modifies this
      ensures var st := VitaeAnswered(old(State()), answer); State() == st.board && toast == st.toast
    {
      match answer {
        case ServerError(m) =>
          toast := Some(Alert(OrElse(m, SaveVitaeFailed)));
        case ServerOk(x) =>
          if editingId.Some? {
            vitae := ReplaceWhere(vitae, editingId.value, x);
            toast := Some(Info("CV mis à jour avec succès"));
            editingId := None;
          } else {
            vitae := vitae + [x];
            toast := Some(Info("CV ajouté avec succès"));
          }
          vitaeForm := EmptyVitaeForm;
      }
      isLoading := false;
    }

    method SubmitEmail(answer: Answer<Id>, now: Timestamp) returns (toast: Option<Toast>)
      modifies this
      ensures var st := EmailSubmit(old(State()), answer, now); State() == st.board && toast == st.toast
    {
      isLoading := true;
      var check := CheckEmail(emailForm);
      if check.Some? {
        isLoading := false;
        return Some(Alert(check.value));
      }
      toast := SendEmail(answer, now);
    }

    /** Applies the subscription route's answer and lowers the loading flag. */
    method SendEmail(answer: Answer<Id>, now: Timestamp) returns (toast: Option<Toast>)
      modifies this
      ensures var st := EmailAnswered(old(State()), answer, now); State() == st.board && toast == st.toast
    {
      match answer {
        case ServerError(m) =>
          toast := Some(Alert(OrElse(m, SaveEmailFailed)));
        case ServerOk(newId) =>
          if editingId.Some? {
            var e := editingId.value;
            emails := ReplaceWhere(emails, e, Keyed(e, EmailRow(emailForm, now)));
            toast := Some(Info("Email mis à jour avec succès"));
            editingId := None;
          } else {
            emails := emails + [Keyed(newId, EmailRow(emailForm, now))];
            toast := Some(Info("Email ajouté avec succès"));
          }
          emailForm := "";
      }
      isLoading := false;
    }

    method AskDelete(id: Id, kind: Kind, title: string)
      modifies this
      ensures State() == RequestDelete(old(State()), id, kind, title)
    {
      deleteConfirm := Some(DeleteTarget(id, kind, title));
    }

    method Confirm(deleted: bool) returns (toast: Option<Toast>)
      modifies this
      ensures var st := ConfirmDelete(old(State()), deleted); State() == st.board && toast == st.toast
    {
      if deleteConfirm.None? {
        return None;
      }
      var t := deleteConfirm.value;
      isLoading := true;
      if deleted {
        toast := Some(Info(DeletedMessage(t.kind)));
      } else {
        toast := Some(Alert("Échec de la suppression de " + KindName(t.kind)));
      }
      isLoading := false;
      deleteConfirm := None;
      if deleted {
        RemoveItem(t.kind, t.id);
      }
    }

    /** The list of one kind filtered after a successful DELETE. */
    method RemoveItem(kind: Kind, id: Id)
      modifies this
      ensures State() == WithoutItem(old(State()), kind, id)
    {
      match kind {
        case ProjectKind => projects := RemoveWhere(projects, id);
        case ExperienceKind => experiences := RemoveWhere(experiences, id);
        case MediaKind => media := RemoveWhere(media, id);
        case VitaeKind => vitae := RemoveWhere(vitae, id);
        case EmailKind => emails := RemoveWhere(emails, id);
        case MessageKind => messages := RemoveWhere(messages, id);
      }
    }

    method CheckSoftware(software: string, checked: bool)
      modifies this
      ensures State() == SoftwareChecked(old(State()), software, checked)
    {
      projectForm := projectForm.(softwares := ToggleSoftware(projectForm.softwares, software, checked));
    }

    method RemoveSoftwareChip(software: string)
      modifies this
      ensures State() == ChipRemoved(old(State()), software)
    {
      projectForm := projectForm.(softwares := RemoveChip(projectForm.softwares, software));
    }
  }
}
