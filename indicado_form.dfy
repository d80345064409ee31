/** The form that registers a referred professional: its validation rules, the
    payload built from the values, the postal-code lookup and the weekday checkboxes. */
module IndicadoForm {
  import opened Wrappers
  import opened Text
  import Collections
  import Utils

  datatype SocialMedia = SocialMedia(instagram: string, linkedin: string, whatsapp: string)

  /** The form's values; the fields the schema marks optional start as "" and stay strings. */
  datatype FormValues = FormValues(
    email: string,
    password: string,
    name: string,
    profession: string,
    document: string,
    generalRegister: string,
    registrationAgency: string,
    description: string,
    experience: string,
    officeName: string,
    phone: string,
    zipCode: string,
    street: string,
    number: string,
    complement: string,
    district: string,
    city: string,
    state: string,
    indicadoPor: string,
    socialMedia: SocialMedia,
    availableDays: seq<string>)

  /** The form's `defaultValues`. */
  const DefaultValues := FormValues("", "", "", "", "", "", "", "", "", "", "", "", "", "", "", "", "", "", "",
                                    SocialMedia("", "", ""), [])

  /** The messages of the schema's rules that `values` breaks, in the schema's order;
      whether an address is a valid email is the parameter `isEmail`. */
  function FormErrors(v: FormValues, isEmail: string -> bool): seq<string> {
    (if isEmail(v.email) then [] else ["Email inválido."]) +
    (if |v.password| >= 6 then [] else ["A senha deve ter pelo menos 6 caracteres."]) +
    (if |v.name| >= 3 then [] else ["O nome deve ter pelo menos 3 caracteres."]) +
    (if |v.profession| >= 1 then [] else ["Selecione uma profissão."]) +
    (if |v.phone| >= 10 then [] else ["Telefone inválido."]) +
    (if |v.district| >= 1 then [] else ["Bairro é obrigatório."]) +
    (if |v.city| >= 1 then [] else ["Cidade é obrigatória."]) +
    (if |v.state| >= 2 then [] else ["Estado é obrigatório."]) +
    (if |v.indicadoPor| >= 3 then [] else ["Informe quem indicou este profissional."])
  }

  /** The form is accepted exactly when every rule of the schema holds. */
  lemma FormErrorsEmptyIff(v: FormValues, isEmail: string -> bool)
    ensures FormErrors(v, isEmail) == [] <==>
      && isEmail(v.email) && |v.password| >= 6 && |v.name| >= 3 && v.profession != ""
      && |v.phone| >= 10 && v.district != "" && v.city != "" && |v.state| >= 2 && |v.indicadoPor| >= 3
  {
  }

  /** The optional fields never block submission: changing them changes no error. */
  lemma OptionalFieldsNotValidated(v: FormValues, isEmail: string -> bool, w: FormValues)
    requires w.email == v.email && w.password == v.password && w.name == v.name
    requires w.profession == v.profession && w.phone == v.phone && w.district == v.district
    requires w.city == v.city && w.state == v.state && w.indicadoPor == v.indicadoPor
    ensures FormErrors(w, isEmail) == FormErrors(v, isEmail)
  {
  }

  /** The default values are refused: the name, the phone and the other required
      fields start empty. */
  lemma DefaultValuesRefused(isEmail: string -> bool)
    ensures FormErrors(DefaultValues, isEmail) != []
    ensures "Telefone inválido." in FormErrors(DefaultValues, isEmail)
  {
  }

  datatype ProfessionalData = ProfessionalData(
    name: string,
    profession: string,
    document: Option<string>,
    generalRegister: Option<string>,
    registrationAgency: Option<string>,
    description: Option<string>,
    experience: Option<string>,
    officeName: Option<string>,
    phone: string,
    verified: bool,
    featured: bool)

  datatype AddressData = AddressData(
    zipCode: Option<string>,
    street: Option<string>,
    number: Option<string>,
    complement: Option<string>,
    district: string,
    city: string,
    state: string)

  datatype UserData = UserData(email: string, password: string, address: AddressData)

  datatype Metadata = Metadata(indicadoPor: string, socialMedia: SocialMedia, availableDays: seq<string>)

  datatype Payload = Payload(professional: ProfessionalData, user: UserData, metadata: Metadata)

  /** `value || undefined` for a string. */
  function OrUndefined(s: string): (r: Option<string>)
    ensures r == None <==> s == ""
    ensures r.Some? ==> r.value == s
  {
    if s == "" then None else Some(s)
  }

  /** The payload `onSubmit` sends to the service. */
  function BuildPayload(v: FormValues): Payload {
    var professional := ProfessionalData(
      v.name, v.profession, OrUndefined(v.document), OrUndefined(v.generalRegister),
      OrUndefined(v.registrationAgency), OrUndefined(v.description), OrUndefined(v.experience),
      OrUndefined(v.officeName), v.phone, false, false);
    var address := AddressData(
      OrUndefined(v.zipCode), OrUndefined(v.street), OrUndefined(v.number), OrUndefined(v.complement),
      v.district, v.city, v.state);
    Payload(professional, UserData(v.email, v.password, address),
            Metadata(v.indicadoPor, v.socialMedia, v.availableDays))
  }

  /** The form values a payload stands for, an absent optional field read back as "". */
  function ValuesOf(p: Payload): FormValues {
    var pro := p.professional;
    var addr := p.user.address;
    FormValues(
      p.user.email, p.user.password, pro.name, pro.profession, pro.document.GetOr(""),
      pro.generalRegister.GetOr(""), pro.registrationAgency.GetOr(""), pro.description.GetOr(""),
      pro.experience.GetOr(""), pro.officeName.GetOr(""), pro.phone, addr.zipCode.GetOr(""),
      addr.street.GetOr(""), addr.number.GetOr(""), addr.complement.GetOr(""), addr.district,
      addr.city, addr.state, p.metadata.indicadoPor, p.metadata.socialMedia, p.metadata.availableDays)
  }

  /** The payload loses nothing: every value of the form can be read back from it. */
  lemma PayloadRoundTrip(v: FormValues)
    ensures ValuesOf(BuildPayload(v)) == v
  {
  }

  /** The payload's shape: each optional field is absent exactly when it was left
      empty and is otherwise copied as typed; the new professional is neither verified
      nor featured; the required fields and the metadata are copied unchanged. */
  lemma BuildPayloadSpec(v: FormValues)
    ensures var pro := BuildPayload(v).professional;
      && (pro.document == None <==> v.document == "") && (pro.document.Some? ==> pro.document.value == v.document)
      && (pro.generalRegister == None <==> v.generalRegister == "")
      && (pro.generalRegister.Some? ==> pro.generalRegister.value == v.generalRegister)
      && (pro.registrationAgency == None <==> v.registrationAgency == "")
      && (pro.registrationAgency.Some? ==> pro.registrationAgency.value == v.registrationAgency)
      && (pro.description == None <==> v.description == "")
      && (pro.description.Some? ==> pro.description.value == v.description)
      && (pro.experience == None <==> v.experience == "") && (pro.experience.Some? ==> pro.experience.value == v.experience)
      && (pro.officeName == None <==> v.officeName == "") && (pro.officeName.Some? ==> pro.officeName.value == v.officeName)
      && !pro.verified && !pro.featured
      && pro.name == v.name && pro.profession == v.profession && pro.phone == v.phone
    ensures var addr := BuildPayload(v).user.address;
      && (addr.zipCode == None <==> v.zipCode == "") && (addr.zipCode.Some? ==> addr.zipCode.value == v.zipCode)
      && (addr.street == None <==> v.street == "") && (addr.street.Some? ==> addr.street.value == v.street)
      && (addr.number == None <==> v.number == "") && (addr.number.Some? ==> addr.number.value == v.number)
      && (addr.complement == None <==> v.complement == "") && (addr.complement.Some? ==> addr.complement.value == v.complement)
      && addr.district == v.district && addr.city == v.city && addr.state == v.state
    ensures BuildPayload(v).user.email == v.email && BuildPayload(v).user.password == v.password
    ensures BuildPayload(v).metadata == Metadata(v.indicadoPor, v.socialMedia, v.availableDays)
  {
  }

  /** The zip-code input starts a lookup once it holds exactly eight digits. */
  predicate ShouldLookupCep(input: string) {
    |Digits(input)| == 8
  }

  /** Punctuation between the digits is ignored: the input starts a lookup exactly
      when the digits on both sides of it add up to eight, as in "01310-100". */
  lemma ShouldLookupCepIgnoresSeparator(before: string, sep: string, after: string)
    requires forall i :: 0 <= i < |sep| ==> !IsDigit(sep[i])
    ensures ShouldLookupCep(before + sep + after) <==> |Digits(before)| + |Digits(after)| == 8
  {
    DigitsOfNoDigits(sep);
    DigitsOfConcat(before, sep);
    DigitsOfConcat(before + sep, after);
  }

  /** The answer of the postal-code service: `erro` when the code is unknown, and the
      four address fields, any of which may be missing. */
  datatype ViaCep = ViaCep(erro: bool, logradouro: Option<string>, bairro: Option<string>,
                           localidade: Option<string>, uf: Option<string>)

  /** The values after a successful lookup: the four address fields are overwritten,
      a missing one with "". */
  function WithAddress(v: FormValues, data: ViaCep): (r: FormValues)
    ensures r.(street := v.street, district := v.district, city := v.city, state := v.state) == v
  {
    v.(street := data.logradouro.GetOr(""), district := data.bairro.GetOr(""),
       city := data.localidade.GetOr(""), state := data.uf.GetOr(""))
  }

  /** `[...(days || []), id]` when checked, `days.filter(d => d !== id)` otherwise. */
  function ToggleDay(days: seq<string>, id: string, checked: bool): seq<string> {
    if checked then days + [id] else Collections.Filter(days, (d: string) => d != id)
  }

  /** Checking a day puts its id at the end and leaves the others in front as they were. */
  lemma ToggleDayOn(days: seq<string>, id: string)
    ensures var r := ToggleDay(days, id, true);
      |r| == |days| + 1 && r[..|days|] == days && r[|days|] == id && id in r
  {
  }

  /** Unchecking a day removes every occurrence of its id and keeps every other
      day, in its order, as many times as it was there. */
  lemma ToggleDayOff(days: seq<string>, id: string)
    ensures id !in ToggleDay(days, id, false)
    ensures forall i :: 0 <= i < |days| && days[i] != id ==> days[i] in ToggleDay(days, id, false)
    ensures Collections.SubseqOf(ToggleDay(days, id, false), days)
    ensures forall d :: multiset(ToggleDay(days, id, false))[d] == if d != id then multiset(days)[d] else 0
  {
    Collections.FilterIsSubseq(days, (d: string) => d != id);
    Collections.FilterCount(days, (d: string) => d != id);
  }

  /** Checking then unchecking a day that was not selected restores the selection. */
  lemma ToggleDayRoundTrip(days: seq<string>, id: string)
    requires id !in days
    ensures ToggleDay(ToggleDay(days, id, true), id, false) == days
  {
    var p := (d: string) => d != id;
    Collections.FilterConcat(days, [id], p);
    Collections.FilterAll(days, p);
    assert Collections.Filter([id], p) == [];
  }

  /** The form's own weekday ids, with their labels. */
  const FormDays: seq<Utils.Day> := [
    Utils.Day("segunda", "Segunda-feira"),
    Utils.Day("terca", "Terça-feira"),
    Utils.Day("quarta", "Quarta-feira"),
    Utils.Day("quinta", "Quinta-feira"),
    Utils.Day("sexta", "Sexta-feira"),
    Utils.Day("sabado", "Sábado"),
    Utils.Day("domingo", "Domingo")
  ]

  /** No two checkboxes share an id, so each toggles a day of its own. */
  lemma FormDayIdsDistinct()
    ensures Collections.Distinct(Utils.DayIds(FormDays))
  {
  }

  /** The form's lower-case Portuguese ids are not ids of the shared weekday table,
      so the shared label lookup hands each of them back unchanged. */
  lemma FormDayIdsNotInSharedTable(i: nat)
    requires i < |FormDays|
    ensures Utils.DayLabelById(FormDays[i].id) == FormDays[i].id
  {
    var id := FormDays[i].id;
    assert id != [] && (id[|id| - 1] == 'a' || id[|id| - 1] == 'o');
    Utils.NotATableId(id);
  }

  /** The form's state: its values and the two progress flags. */
  class IndicadoFormState {
    var values: FormValues
    var loading: bool
    var cepBuscando: bool

    constructor ()
      ensures values == DefaultValues && !loading && !cepBuscando
    {
      values, loading, cepBuscando := DefaultValues, false, false;
    }

    /** `buscarEnderecoPorCep`: a code shorter than eight characters is ignored; otherwise
        the service's answer fills the address when it knows the code, an unknown code or
        a failed request leaves the values as they were, and the search flag ends down. */
    method BuscarEnderecoPorCep(cep: string, reply: Reply<ViaCep>)
      modifies this`values, this`cepBuscando
      ensures |cep| < 8 ==> values == old(values) && cepBuscando == old(cepBuscando)
      ensures |cep| >= 8 ==> !cepBuscando
      ensures |cep| >= 8 && reply.Resolved? && !reply.value.erro ==> values == WithAddress(old(values), reply.value)
      ensures |cep| >= 8 && (reply.Rejected? || reply.value.erro) ==> values == old(values)
    {
      if |cep| < 8 {
        return;
      }
      cepBuscando := true;
      if reply.Resolved? && !reply.value.erro {
        values := WithAddress(values, reply.value);
      }
      cepBuscando := false;
    }

    /** The zip-code input's `onChange`: the typed text is stored, and eight digits
        start a lookup with those digits. */
    method OnZipCodeChange(input: string, reply: Reply<ViaCep>)
      modifies this`values, this`cepBuscando
      ensures var typed := old(values).(zipCode := input);
        if ShouldLookupCep(input) && reply.Resolved? && !reply.value.erro then values == WithAddress(typed, reply.value)
        else values == typed
      ensures cepBuscando == (if ShouldLookupCep(input) then false else old(cepBuscando))
    {
      values := values.(zipCode := input);
      var cep := Digits(input);
      if |cep| == 8 {
        BuscarEnderecoPorCep(cep, reply);
      }
    }

    /** A weekday checkbox's `onCheckedChange`. */
    method OnDayCheckedChange(id: string, checked: bool)
      modifies this`values
      ensures values == old(values).(availableDays := ToggleDay(old(values.availableDays), id, checked))
    {
      values := values.(availableDays := ToggleDay(values.availableDays, id, checked));
    }

    /** `form.handleSubmit(onSubmit)`: a form that breaks a rule is not submitted; a
        valid one sends the payload of its values, and loading ends whatever the
        service answers. */
    method OnSubmit(isEmail: string -> bool) returns (sent: Option<Payload>)
      modifies this`loading
      ensures FormErrors(values, isEmail) != [] ==> sent == None && loading == old(loading)
      ensures FormErrors(values, isEmail) == [] ==> sent == Some(BuildPayload(values)) && !loading
    {
      if FormErrors(values, isEmail) != [] {
        return None;
      }
      loading := true;
      var payload := BuildPayload(values);
      sent := Some(payload);
      loading := false;
    }
  }
}
