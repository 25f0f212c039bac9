/**
 * The form bridge of the delegation form page: the table of embedded forms,
 * and the handler that turns a form-submission message into a create
 * request by picking the client name and the notes out of the submitted
 * fields.
 */
module FormBridge {
  import opened Wrappers
  import opened Text
  import opened Model
  import Actions

  /** One embedded form: its page texts, its embed URL, and the operation it requests. */
  datatype FormConfig = FormConfig(
    title: string,
    description: string,
    formUrl: string,
    operationType: string,
    kind: string
  )

  /** The forms, by the page path that shows them. */
  const FormConfigs: map<string, FormConfig> := map[
    "/dashboard/delegate/souscription/assurance-vie" := FormConfig(
      "Délégation Souscription Assurance Vie",
      "Déléguez la mise en place d'un contrat d'assurance vie pour votre client",
      "https://tally.so/embed/mKa4yX?alignLeft=1&hideTitle=1&transparentBackground=1&dynamicHeight=1",
      "Assurance Vie", Souscription),
    "/dashboard/delegate/souscription/per" := FormConfig(
      "Délégation Souscription PER",
      "Déléguez la mise en place d'un Plan Épargne Retraite pour votre client",
      "https://tally.so/embed/mB2Wg5?alignLeft=1&hideTitle=1&transparentBackground=1&dynamicHeight=1",
      "PER", Souscription),
    "/dashboard/delegate/souscription/scpi-pp" := FormConfig(
      "Délégation Souscription SCPI en Pleine Propriété",
      "Déléguez la souscription de parts de SCPI en pleine propriété pour votre client",
      "https://tally.so/embed/nrkZ5R?alignLeft=1&hideTitle=1&transparentBackground=1&dynamicHeight=1",
      "SCPI Pleine Propriété", Souscription),
    "/dashboard/delegate/souscription/scpi-np" := FormConfig(
      "Délégation Souscription SCPI en Nue Propriété",
      "Déléguez la souscription de parts de SCPI en démembrement pour votre client",
      "https://tally.so/embed/wAjXpD?alignLeft=1&hideTitle=1&transparentBackground=1&dynamicHeight=1",
      "SCPI Nue Propriété", Souscription),
    "/dashboard/delegate/acte/changement-rib" := FormConfig(
      "Arbitrage",
      "Déléguez un arbitrage sur les contrats de votre client",
      "https://tally.so/embed/mOoN7R?alignLeft=1&hideTitle=1&transparentBackground=1&dynamicHeight=1",
      "Arbitrage", ActesDeGestion)
  ]

  /** The form shown at `path`, or None when the page has no form (it redirects). */
  function ConfigFor(path: string): (c: Option<FormConfig>)
    ensures c.Some? <==> path in FormConfigs
    ensures c.Some? ==> c.value == FormConfigs[path]
    ensures c.Some? ==> IsAllowedKind(c.value.kind)
  {
    if path in FormConfigs then Some(FormConfigs[path]) else None
  }

  /** The text whose presence marks a message as a form submission. */
  const Marker: string := "Tally.FormSubmitted"

  /** One submitted field: its title and its `answer.value`, when there is one. */
  datatype Field = Field(title: string, value: Option<string>)

  /**
   * The decoded submission payload: its `fields` member (None when absent or
   * not an array) and the payload object itself, stored as `formData`.
   */
  datatype Submission = Submission(fields: Option<seq<Field>>, raw: FormData)

  /** The decoded message: its `payload` member, None when missing or falsy. */
  datatype Envelope = Envelope(payload: Option<Submission>)

  /**
   * A message posted to the page: non-string data, or a string together
   * with its JSON decoding (None when the decoding throws).
   */
  datatype Message = NonString | Posted(data: string, parsed: Option<Envelope>)

  /** The two values the handler looks for among the fields. */
  datatype Role = ClientNameRole | NotesRole {
    /** The value kept when no usable field is found. */
    function Default(): string {
      match this
      case ClientNameRole => "Client"
      case NotesRole => ""
    }
  }

  /** The keyword test on a lower-cased field title. */
  predicate Matches(role: Role, title: string) {
    var t := Lower(title);
    match role
    case ClientNameRole => Contains(t, "nom") || Contains(t, "name") || Contains(t, "client")
    case NotesRole => Contains(t, "notes") || Contains(t, "commentaire")
  }

  /** JavaScript truthiness of an answer value: present and not empty. */
  predicate Truthy(v: Option<string>) {
    v.Some? && v.value != ""
  }

  /** `i` is the position `Array.prototype.find` stops at. */
  ghost predicate IsFirstMatch(fields: seq<Field>, role: Role, i: nat) {
    && i < |fields|
    && Matches(role, fields[i].title)
    && forall j :: 0 <= j < i ==> !Matches(role, fields[j].title)
  }

  /** The position of the first field whose title matches, as `find` scans. */
  function FirstMatch(fields: seq<Field>, role: Role): (r: Option<nat>)
    ensures r.Some? ==> IsFirstMatch(fields, role, r.value)
    ensures r.None? <==> forall j :: 0 <= j < |fields| ==> !Matches(role, fields[j].title)
  {
    if fields == [] then None
    else if Matches(role, fields[0].title) then Some(0)
    else
      match FirstMatch(fields[1..], role)
      case None => None
      case Some(i) => Some(i + 1)
  }

  /**
   * The value the handler extracts for `role`: the first matching field's
   * value when it is truthy, the role's default otherwise; a later matching
   * field is never consulted.
   */
  function Extract(fields: Option<seq<Field>>, role: Role): (r: string)
    ensures fields.None? ==> r == role.Default()
    ensures fields.Some? && (forall j :: 0 <= j < |fields.value| ==> !Matches(role, fields.value[j].title))
            ==> r == role.Default()
    ensures forall i: nat :: fields.Some? && IsFirstMatch(fields.value, role, i) ==>
              r == (if Truthy(fields.value[i].value) then fields.value[i].value.value else role.Default())
  {
    match fields
    case None => role.Default()
    case Some(fs) =>
      match FirstMatch(fs, role)
      case None => role.Default()
      case Some(i) =>
        FirstMatchUnique(fs, role, i);
        if Truthy(fs[i].value) then fs[i].value.value else role.Default()
  }

  /** There is only one first match. */
  lemma FirstMatchUnique(fields: seq<Field>, role: Role, i: nat)
    requires IsFirstMatch(fields, role, i)
    ensures forall j: nat :: IsFirstMatch(fields, role, j) ==> j == i
  {
  }

  /** Fields after the first match have no influence on what is extracted. */
  lemma {:induction false} LaterFieldsIgnored(fields: seq<Field>, rest: seq<Field>, role: Role, i: nat)
    requires IsFirstMatch(fields, role, i)
    ensures Extract(Some(fields[..i + 1] + rest), role) == Extract(Some(fields), role)
  {
    var fs := fields[..i + 1] + rest;
    assert forall j :: 0 <= j <= i ==> fs[j] == fields[j];
    assert IsFirstMatch(fs, role, i);
  }

  /**
   * The message handler: the create request a message leads to, or None when
   * the message is ignored.
   */
  function HandleMessage(msg: Message, config: Option<FormConfig>): (r: Option<CreateInput>)
    ensures r.Some? <==>
            && msg.Posted?
            && Contains(msg.data, Marker)
            && msg.parsed.Some?
            && msg.parsed.value.payload.Some?
            && config.Some?
    ensures r.Some? ==>
      var payload := msg.parsed.value.payload.value;
      var req := r.value;
      && req.clientName == Extract(payload.fields, ClientNameRole)
      && req.notes == Some(Extract(payload.fields, NotesRole))
      && req.name == config.value.operationType + " - " + req.clientName
      && req.kind == config.value.kind
      && req.operationType == config.value.operationType
      && req.formData == Some(payload.raw)
  {
    match msg
    case NonString => None
    case Posted(data, parsed) =>
      if !Contains(data, Marker) then None
      else
        match parsed
        case None => None
        case Some(envelope) =>
          match envelope.payload
          case None => None
          case Some(payload) =>
            match config
            case None => None
            case Some(cfg) =>
              var clientName := Extract(payload.fields, ClientNameRole);
              var notes := Extract(payload.fields, NotesRole);
              Some(CreateInput(
                name := cfg.operationType + " - " + clientName,
                clientName := clientName,
                kind := cfg.kind,
                operationType := cfg.operationType,
                formData := Some(payload.raw),
                notes := Some(notes)))
  }

  /** The fixed request of the page's direct-submit button; None without a form. */
  function DirectSubmit(config: Option<FormConfig>): (r: Option<CreateInput>)
    ensures r.Some? <==> config.Some?
    ensures r.Some? ==>
      && r.value.name == config.value.operationType + " - Direct Submit"
      && r.value.clientName == "Client Test"
      && r.value.kind == config.value.kind
      && r.value.operationType == config.value.operationType
      && r.value.formData == Some(map["directSubmit" := Bool(true)])
      && r.value.notes == Some("Created via direct submit button")
  {
    match config
    case None => None
    case Some(cfg) =>
      Some(CreateInput(
        name := cfg.operationType + " - Direct Submit",
        clientName := "Client Test",
        kind := cfg.kind,
        operationType := cfg.operationType,
        formData := Some(map["directSubmit" := Bool(true)]),
        notes := Some("Created via direct submit button")))
  }

  /**
   * Every request the page builds carries an allowed `type`, so the server's
   * coercion leaves it as the form's configured type.
   */
  lemma PageRequestsNeedNoCoercion(path: string, msg: Message)
    ensures forall req :: HandleMessage(msg, ConfigFor(path)) == Some(req) ==>
              Actions.CoerceKind(req.kind) == req.kind == FormConfigs[path].kind
    ensures forall req :: DirectSubmit(ConfigFor(path)) == Some(req) ==>
              Actions.CoerceKind(req.kind) == req.kind == FormConfigs[path].kind
  {
  }

  /** "Nom du client" is a client-name title and not a notes title. */
  lemma NomDuClientTitle()
    ensures Matches(ClientNameRole, "Nom du client")
    ensures !Matches(NotesRole, "Nom du client")
  {
    var l := Lower("Nom du client");
    assert l[..3] == "nom";
    assert OccursAt(l, "nom", 0);
    LowerAvoids("Nom du client", 's');
    MissingCharNotContained(l, "notes", 4);
    LowerAvoids("Nom du client", 'r');
    MissingCharNotContained(l, "commentaire", 9);
  }

  /** "Commentaires" is a notes title. */
  lemma CommentairesTitle()
    ensures Matches(NotesRole, "Commentaires")
  {
    var l := Lower("Commentaires");
    assert l[..11] == "commentaire";
    assert OccursAt(l, "commentaire", 0);
  }

  /** The worked example: a "Nom du client" field and a "Commentaires" field. */
  lemma WorkedExample()
    ensures var fields := [Field("Nom du client", Some("Dupont")), Field("Commentaires", Some("urgent"))];
            && Extract(Some(fields), ClientNameRole) == "Dupont"
            && Extract(Some(fields), NotesRole) == "urgent"
  {
    var fields := [Field("Nom du client", Some("Dupont")), Field("Commentaires", Some("urgent"))];
    NomDuClientTitle();
    CommentairesTitle();
    assert IsFirstMatch(fields, ClientNameRole, 0);
    assert IsFirstMatch(fields, NotesRole, 1);
  }
}
