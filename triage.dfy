/**
 * The triage record of app/schemas/triage.py: six clinical fields with empty-string
 * defaults, an intensity bounded to 0..10, and an optional conversation id.
 */
module TriageSchema {
  import opened Wrappers

  /** `IntensityScale = conint(ge=0, le=10)`. */
  predicate InIntensityScale(n: int) {
    0 <= n <= 10
  }

  /** A constructed `Triage` model. */
  datatype Triage = Triage(
    conversationId: Option<string>,
    queixaPrincipal: string,
    sintomas: string,
    duracaoFrequencia: string,
    intensidade: int,
    historico: string,
    medidasTomadas: string)
  {
    predicate Valid() {
      InIntensityScale(intensidade)
    }
  }

  /** The fields a constructor call or a JSON object supplies, each possibly left out. */
  datatype TriageFields = TriageFields(
    conversationId: Input<string>,
    queixaPrincipal: Input<string>,
    sintomas: Input<string>,
    duracaoFrequencia: Input<string>,
    intensidade: Input<int>,
    historico: Input<string>,
    medidasTomadas: Input<string>)

  const NoFields := TriageFields(Omitted, Omitted, Omitted, Omitted, Omitted, Omitted, Omitted)

  /** A JSON-like value, as a stored dict holds it. */
  datatype Value = Str(s: string) | Int(i: int) | NoneValue

  const ConversationIdKey := "conversation_id"
  const QueixaPrincipalKey := "queixa_principal"
  const SintomasKey := "sintomas"
  const DuracaoFrequenciaKey := "duracao_frequencia"
  const IntensidadeKey := "intensidade"
  const HistoricoKey := "historico"
  const MedidasTomadasKey := "medidas_tomadas"

  const FieldNames: set<string> := {
    ConversationIdKey, QueixaPrincipalKey, SintomasKey, DuracaoFrequenciaKey,
    IntensidadeKey, HistoricoKey, MedidasTomadasKey
  }

  /** A `str` field with default "": `None` is rejected. */
  function TextField(x: Input<string>): Option<string> {
    match x
    case Omitted => Some("")
    case Null => None
    case Given(v) => Some(v)
  }

  /** The `intensidade` field: default 0, `None` rejected, value within the scale. */
  function IntensityField(x: Input<int>): Option<int> {
    match x
    case Omitted => Some(0)
    case Null => None
    case Given(v) => if InIntensityScale(v) then Some(v) else None
  }

  /** The names of the fields whose input is rejected, in declaration order. */
  function Errors(f: TriageFields): seq<string> {
    (if TextField(f.queixaPrincipal).None? then [QueixaPrincipalKey] else [])
    + (if TextField(f.sintomas).None? then [SintomasKey] else [])
    + (if TextField(f.duracaoFrequencia).None? then [DuracaoFrequenciaKey] else [])
    + (if IntensityField(f.intensidade).None? then [IntensidadeKey] else [])
    + (if TextField(f.historico).None? then [HistoricoKey] else [])
    + (if TextField(f.medidasTomadas).None? then [MedidasTomadasKey] else [])
  }

  /**
   * Constructing a `Triage` from the given fields: unset fields take their defaults,
   * and the construction fails when a text field is `None` or the intensity is `None`
   * or outside 0..10. Every constructed record is valid.
   */
  function Validate(f: TriageFields): (r: Result<Triage, ValidationError>)
    ensures r.Success? ==> r.value.Valid()
    ensures f.intensidade.Given? && !InIntensityScale(f.intensidade.value) ==> r.Failure?
    ensures r.Success? <==>
      (!f.queixaPrincipal.Null? && !f.sintomas.Null? && !f.duracaoFrequencia.Null?
       && !f.historico.Null? && !f.medidasTomadas.Null?
       && !f.intensidade.Null? && (f.intensidade.Given? ==> InIntensityScale(f.intensidade.value)))
  {
    if Errors(f) == [] then
      Success(Triage(
        f.conversationId.AsOptional(),
        TextField(f.queixaPrincipal).value,
        TextField(f.sintomas).value,
        TextField(f.duracaoFrequencia).value,
        IntensityField(f.intensidade).value,
        TextField(f.historico).value,
        TextField(f.medidasTomadas).value))
    else
      Failure(ValidationError(Errors(f)))
  }

  /** Every field of `t`, given explicitly (a missing conversation id given as `None`). */
  function AllFields(t: Triage): TriageFields {
    TriageFields(
      if t.conversationId.Some? then Given(t.conversationId.value) else Null,
      Given(t.queixaPrincipal), Given(t.sintomas), Given(t.duracaoFrequencia),
      Given(t.intensidade), Given(t.historico), Given(t.medidasTomadas))
  }

  /** Rebuilding a record from all of its fields gives it back exactly when it is valid. */
  lemma ValidateAllFields(t: Triage)
    ensures Validate(AllFields(t)) == (if t.Valid() then Success(t) else Failure(ValidationError([IntensidadeKey])))
  {
    assert Errors(AllFields(t)) == if t.Valid() then [] else [IntensidadeKey];
  }

  /** A `Triage` is valid iff its intensity lies in 0..10. */
  lemma ValidIffInScale(t: Triage)
    ensures t.Valid() <==> 0 <= t.intensidade <= 10
  {
  }

  /** `Triage()` with no arguments: empty texts, intensity 0, no conversation id. */
  lemma DefaultsWhenNothingIsSet()
    ensures Validate(NoFields) == Success(Triage(None, "", "", "", 0, "", ""))
  {
  }

  function ClinicalFields(intensidade: int): TriageFields {
    TriageFields(Omitted, Given("Dor abdominal"), Given("Dor constante na região inferior"),
      Given("2 dias"), Given(intensidade), Given("Nenhum"), Given("Tomou analgésico"))
  }

  /** Intensity 7 is accepted and kept; 15 is rejected. */
  lemma IntensitySevenAcceptedFifteenRejected()
    ensures Validate(ClinicalFields(7)).Success? && Validate(ClinicalFields(7)).value.intensidade == 7
    ensures Validate(ClinicalFields(15)).Failure?
  {
  }

  /** The bounds themselves are accepted, their neighbours outside are rejected. */
  lemma IntensityBounds()
    ensures Validate(ClinicalFields(0)).Success? && Validate(ClinicalFields(10)).Success?
    ensures Validate(ClinicalFields(-1)).Failure? && Validate(ClinicalFields(11)).Failure?
  {
  }

  /** The example record documented on the model. */
  const DocumentedExample := Triage(
    Some("123e4567-e89b-12d3-a456-426614174000"),
    "Dor no peito",
    "Dor contínua no lado esquerdo do peito, irradiando para o braço.",
    "Começou há 2 dias, ocorre várias vezes ao dia.",
    8,
    "Hipertensão, episódio semelhante há 1 ano.",
    "Tomou analgésico, sem melhora.")

  lemma DocumentedExampleIsValid()
    ensures DocumentedExample.Valid()
    ensures Validate(AllFields(DocumentedExample)) == Success(DocumentedExample)
  {
    ValidateAllFields(DocumentedExample);
  }

  // ---------------------------------------------------------------------------
  // dict(exclude_unset=True)
  // ---------------------------------------------------------------------------

  /** Whether the field called `name` was set (given a value or `None`). */
  predicate IsSet(f: TriageFields, name: string) {
    if name == ConversationIdKey then !f.conversationId.Omitted?
    else if name == QueixaPrincipalKey then !f.queixaPrincipal.Omitted?
    else if name == SintomasKey then !f.sintomas.Omitted?
    else if name == DuracaoFrequenciaKey then !f.duracaoFrequencia.Omitted?
    else if name == IntensidadeKey then !f.intensidade.Omitted?
    else if name == HistoricoKey then !f.historico.Omitted?
    else if name == MedidasTomadasKey then !f.medidasTomadas.Omitted?
    else false
  }

  /** The value of the attribute called `name` of `t`. */
  function Attribute(t: Triage, name: string): Value {
    if name == ConversationIdKey then (if t.conversationId.Some? then Str(t.conversationId.value) else NoneValue)
    else if name == QueixaPrincipalKey then Str(t.queixaPrincipal)
    else if name == SintomasKey then Str(t.sintomas)
    else if name == DuracaoFrequenciaKey then Str(t.duracaoFrequencia)
    else if name == IntensidadeKey then Int(t.intensidade)
    else if name == HistoricoKey then Str(t.historico)
    else Str(t.medidasTomadas)
  }

  /**
   * `t.dict(exclude_unset=True)` for a record built from `f`: the fields that `f`
   * set, each with the record's value.
   */
  function ExcludeUnset(t: Triage, f: TriageFields): (r: map<string, Value>)
    ensures r.Keys <= FieldNames
  {
    map k | k in FieldNames && IsSet(f, k) :: Attribute(t, k)
  }

  /** The dumped dict is empty exactly when no field was set. */
  lemma ExcludeUnsetEmptyIff(t: Triage, f: TriageFields)
    ensures ExcludeUnset(t, f) == map[] <==> f == NoFields
  {
    var d := ExcludeUnset(t, f);
    if f != NoFields {
      if !f.conversationId.Omitted? { assert ConversationIdKey in d; }
      else if !f.queixaPrincipal.Omitted? { assert QueixaPrincipalKey in d; }
      else if !f.sintomas.Omitted? { assert SintomasKey in d; }
      else if !f.duracaoFrequencia.Omitted? { assert DuracaoFrequenciaKey in d; }
      else if !f.intensidade.Omitted? { assert IntensidadeKey in d; }
      else if !f.historico.Omitted? { assert HistoricoKey in d; }
      else { assert MedidasTomadasKey in d; }
    }
  }
}
