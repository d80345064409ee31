# Admin dashboard logic, modelled in Dafny

The dashboard administers a marketplace of interior-design professionals, partner
stores, referred professionals, users and "decoration lovers". Nearly everything it
shows comes from a REST backend. This model covers the logic the dashboard itself
carries out:

- **The partner-store service.** `LojasService` keeps its stores in the in-memory
  `mockLojas` table and changes it in place: it appends, merges an update into a
  record, sets a status, splices a record out and moves a professionals counter.
  `LojasService.LojasTable` holds that table as a `seq<Loja>` field.
- **Formatters and lookups.**
  - The partner-supplier address formatter and the display mapping (`FornecedorParceiro`).
  - The weekday-label lookup (`Utils`).
  - The CPF mask and the login checks (`Login`). A CPF is the Brazilian
    taxpayer number; the login form masks it as `ddd.ddd.ddd-dd`.
- **The referred-professional form** (`IndicadoForm`): its validation rules, its
  payload, the postal-code lookup and the weekday checkboxes.
- **The list screens.** The shared pattern is modelled once in `ListScreen` and
  `Collections`:
  - a case-insensitive search;
  - an update or removal keyed by id, applied only when the remote call succeeded;
  - a pending target that is cleared afterwards.

  Each screen then has a module of its own, whose `Screen` class holds the
  component's React state. Every handler is one atomic method on that class.

Shared helpers:

- `Wrappers` holds `Option`, `Result` and `Reply`. `Reply` is the answer of a remote
  call, which resolves or rejects.
- `Text` models the JavaScript string operations used:
  - ASCII `toLowerCase`/`toUpperCase`;
  - `replace(/\D/g, '')`;
  - `includes`;
  - `trim` with its exact white-space set;
  - `replace('@', '')`.
- `Collections` holds filter, map-by-predicate, find, `findIndex`, and `Set`
  de-duplication with insertion order kept.

Every remote call is a parameter. It is `ok: bool` when only success matters, and a
`Reply` when data comes back. A handler returns the call it would make, so its
contract can say when a call happens and with what.

## Model

| member | source | states |
|---|---|---|
| LojasService.IndexOfLoja | services/fornecedores-parceiros.ts:274 | `findIndex` is -1 exactly when no record has the id, and otherwise the first record with it |
| LojasService.FindIndex | services/fornecedores-parceiros.ts:274 | the linear search returns the index `findIndex` defines |
| LojasService.NovaLoja | services/fornecedores-parceiros.ts:183-189 | a new store has the caller's fields, the given id and date, status Ativa and 0 professionals |
| LojasService.LojasTable.CadastrarLoja | services/fornecedores-parceiros.ts:172-199 | exactly one record is appended at the end and the earlier ones are unchanged; non-negative counters stay non-negative |
| LojasService.LojasTable.AtualizarLoja | services/fornecedores-parceiros.ts:236-263 | an unknown id fails with "Loja com ID … não encontrada" and leaves the table alone; otherwise only the first match is replaced by its merge with the update; the length never changes |
| LojasService.MergeKeepsUnnamed | services/fornecedores-parceiros.ts:250-254 | for each of the ten fields, a key absent from the update keeps its stored value and a present key wins; an empty update changes nothing |
| LojasService.MergeIdempotent | services/fornecedores-parceiros.ts:250-254 | merging the same update twice equals merging it once |
| LojasService.LojasTable.AtivarLoja | services/fornecedores-parceiros.ts:266-283 | the table becomes the one where the first record with the id is Ativa |
| LojasService.LojasTable.DesativarLoja | services/fornecedores-parceiros.ts:286-303 | the table becomes the one where the first record with the id is Inativa |
| LojasService.SetStatusFirstSpec | services/fornecedores-parceiros.ts:275-278 | only the first record with the id changes, and only in its status; an absent id changes nothing |
| LojasService.SetStatusIdempotent | services/fornecedores-parceiros.ts:275-278 | activating (or deactivating) twice equals doing it once |
| LojasService.LojasTable.ExcluirLoja | services/fornecedores-parceiros.ts:306-323 | the table becomes the one with the first record with the id spliced out |
| LojasService.RemoveFirstLojaSpec | services/fornecedores-parceiros.ts:315-318 | the length drops by one exactly when the id is present; otherwise nothing changes; the rest keep their order and every other record remains |
| LojasService.LojasTable.AdicionarProfissionalALoja | services/fornecedores-parceiros.ts:346-381 | the store's counter rises only when the professional exists and its update resolved; a rejection is reported as failure |
| LojasService.IncrementFirstSpec | services/fornecedores-parceiros.ts:363-372 | the first store with the id counts exactly one more and nothing else changes; counters stay non-negative |
| LojasService.LojasTable.RemoverProfissionalDaLoja | services/fornecedores-parceiros.ts:384-417 | the counter drops only when the professional belongs to that store and its update resolved |
| LojasService.DecrementFirstSpec | services/fornecedores-parceiros.ts:399-408 | a counter never drops below zero, at most the first matching store changes, and by at most one |
| LojasService.IncrementThenDecrement | services/fornecedores-parceiros.ts:363-372 | adding and then removing a professional restores the table |
| FornecedorParceiro.Present | types/Fornecedor-Parceiro/FornecedorParceiro.ts:123 | `filter(Boolean)` leaves no empty or missing part |
| FornecedorParceiro.PresentSpec | types/Fornecedor-Parceiro/FornecedorParceiro.ts:123 | the kept parts are exactly the present, non-empty ones, and none are kept only when no part is |
| FornecedorParceiro.PresentIsFilter | types/Fornecedor-Parceiro/FornecedorParceiro.ts:123 | read back as optional values, the kept parts are the parts filtered by truthiness, position by position: same order, every copy |
| FornecedorParceiro.SplitJoin | types/Fornecedor-Parceiro/FornecedorParceiro.ts:123 | splitting a `join(', ')` of non-empty comma-free parts gives the parts back |
| FornecedorParceiro.FormattedAddressSegments | types/Fornecedor-Parceiro/FornecedorParceiro.ts:115-124 | the address splits back into the present fields in the order street, number, complement, district, city, state, zip code, and no segment is empty |
| FornecedorParceiro.ComplementAbsentOrEmpty | types/Fornecedor-Parceiro/FornecedorParceiro.ts:120-124 | a missing or empty complement gives the same address as no complement at all |
| FornecedorParceiro.FormattedAddressEmptyIff | types/Fornecedor-Parceiro/FornecedorParceiro.ts:115-124 | the address is "" exactly when all seven fields are empty or missing |
| FornecedorParceiro.FormattedAddressComplete | types/Fornecedor-Parceiro/FornecedorParceiro.ts:115-124 | with every field present, the address is the seven fields joined by ", " |
| FornecedorParceiro.ToDisplayDataSpec | types/Fornecedor-Parceiro/FornecedorParceiro.ts:78-107 | the mapping fails exactly when the store is missing; otherwise its full address is the formatted store address and the other fields are copied through |
| FornecedorParceiro.HasActiveStoreIff | types/Fornecedor-Parceiro/FornecedorParceiro.ts:110-112 | true exactly when the store is present and the store id is present and non-empty |
| Text.ContainsIff | components/amantes-de-decoracao/amantes-de-decoracao-list.tsx:86 | `includes` holds exactly when the term occurs at some position of the field |
| Text.TrimSpec | app/login/page.tsx:96 | `trim` keeps a slice of the input and cuts only white space around it; the result neither starts nor ends with white space |
| Text.BlankIff | app/login/page.tsx:96 | a keyword trims to "" exactly when it is all white space |
| Utils.DayIdsDistinct | lib/utils.ts:4-12 | the table's seven ids are pairwise distinct |
| Utils.DayLabelByIdSpec | lib/utils.ts:30-33 | an id whose upper case is in the table gets that entry's label; any other id comes back unchanged |
| Utils.DayLabelIgnoresCase | lib/utils.ts:31 | the lower-case spelling of a table id gets the same label |
| Utils.NotATableId | lib/utils.ts:30-33 | an id whose last letter, upper-cased, is not "Y" comes back unchanged, since every table id ends in "Y" |
| Utils.DayLabelExamples | lib/utils.ts:4-12 | "MONDAY" and "monday" give "Segunda-feira"; "segunda" gives "segunda" |
| Login.DigitsOfFormatCPF | app/login/page.tsx:41-44 | stripping non-digits from the mask gives exactly the input's digits |
| Login.FormatCPFIdempotent | app/login/page.tsx:41-44 | masking an already masked value changes nothing |
| Login.FormatCPFShape | app/login/page.tsx:41-44 | under 11 digits the bare digits are shown; 11 digits give the 14-character `ddd.ddd.ddd-dd` |
| Login.FormatCPFFitsIff | app/login/page.tsx:50-54 | the mask fits the 14-character limit exactly when the input has at most 11 digits |
| Login.ValidCpfIsFullMask | app/login/page.tsx:62-65 | a field the change handler produced validates exactly when it holds the full 14-character mask |
| Login.MakeRequestBody | app/login/page.tsx:93-97 | the body's CPF is all digits and the password is sent as typed |
| Login.SubmitSucceedsIff | app/login/page.tsx:67-150 | a login succeeds exactly when the CPF digits, the password and the lower-cased, trimmed keyword are the fixed credentials |
| Login.SubmitErrorOrder | app/login/page.tsx:73-146 | each message names the first failing check: the CPF, then the password length, then the keyword length; "Credenciais inválidas" comes exactly when all three pass and the request body differs from the fixed credentials |
| Login.BlankKeywordRefused | app/login/page.tsx:85-89 | for any CPF whose digits are the fixed ones, with the right password, a keyword of three spaces passes the length check and is refused as wrong credentials |
| Login.PaddedKeywordAccepted | app/login/page.tsx:96 | for any CPF whose digits are the fixed ones, with the right password, the keyword " SISTEMA " logs in |
| Login.LoginPage.HandleLoginChange | app/login/page.tsx:47-60 | a CPF edit is masked and kept only when it fits 14 characters; other fields take the value; the error is cleared; the CPF field stays in mask form |
| Login.LoginPage.HandleLoginSubmit | app/login/page.tsx:67-150 | the error left is the one the checks and the comparison give; success is recorded; loading ends |
| IndicadoForm.FormErrorsEmptyIff | components/profissionais-indicados/profissional-indicado-form.tsx:20-71 | the form is accepted exactly when the email is valid, password ≥ 6, name ≥ 3, phone ≥ 10, state ≥ 2, referrer ≥ 3 and profession, district and city are non-empty |
| IndicadoForm.OptionalFieldsNotValidated | components/profissionais-indicados/profissional-indicado-form.tsx:20-71 | the optional fields never change the errors |
| IndicadoForm.DefaultValuesRefused | components/profissionais-indicados/profissional-indicado-form.tsx:91-124 | the initial values are refused, among other things for the phone |
| IndicadoForm.OrUndefined | components/profissionais-indicados/profissional-indicado-form.tsx:171-176 | `value \|\| undefined` is absent exactly for "" and otherwise the value itself |
| IndicadoForm.BuildPayloadSpec | components/profissionais-indicados/profissional-indicado-form.tsx:164-206 | each optional field is absent exactly when empty and otherwise copied; verified and featured are false; the required fields and the metadata are copied |
| IndicadoForm.PayloadRoundTrip | components/profissionais-indicados/profissional-indicado-form.tsx:164-206 | the form values can be read back from the payload |
| IndicadoForm.ShouldLookupCepIgnoresSeparator | components/profissionais-indicados/profissional-indicado-form.tsx:442-448 | punctuation between the parts of a CEP is ignored: a lookup starts exactly when the digits on both sides add up to eight |
| IndicadoForm.WithAddress | components/profissionais-indicados/profissional-indicado-form.tsx:136-140 | a lookup changes only street, district, city and state |
| IndicadoForm.ToggleDayOn | components/profissionais-indicados/profissional-indicado-form.tsx:664-665 | checking appends the id at the end and keeps the rest in front |
| IndicadoForm.ToggleDayOff | components/profissionais-indicados/profissional-indicado-form.tsx:666 | unchecking removes every occurrence of the id and keeps every other day in order, as many times as it was there |
| IndicadoForm.ToggleDayRoundTrip | components/profissionais-indicados/profissional-indicado-form.tsx:662-667 | checking then unchecking an unselected day restores the selection |
| IndicadoForm.FormDayIdsDistinct | components/profissionais-indicados/profissional-indicado-form.tsx:74-82 | the seven checkbox ids are pairwise distinct |
| IndicadoForm.FormDayIdsNotInSharedTable | components/profissionais-indicados/profissional-indicado-form.tsx:74-82 | the shared label lookup returns each of the form's ids unchanged |
| IndicadoForm.IndicadoFormState.BuscarEnderecoPorCep | components/profissionais-indicados/profissional-indicado-form.tsx:128-162 | a code under 8 characters is ignored; a known code fills the address; an unknown code or a failure keeps the values; the search flag ends down |
| IndicadoForm.IndicadoFormState.OnZipCodeChange | components/profissionais-indicados/profissional-indicado-form.tsx:442-448 | the text is stored and a lookup runs exactly when it holds 8 digits |
| IndicadoForm.IndicadoFormState.OnDayCheckedChange | components/profissionais-indicados/profissional-indicado-form.tsx:662-667 | only the day list changes, by the toggle |
| IndicadoForm.IndicadoFormState.OnSubmit | components/profissionais-indicados/profissional-indicado-form.tsx:164-226 | an invalid form sends nothing; a valid one sends its payload and loading ends |
| Collections.Filter | components/profissionais/profissionais-indicados-list.tsx:76 | `filter` keeps only items satisfying the predicate, at least one copy of each item that satisfies it, and never grows |
| Collections.FilterCount | components/profissionais/profissionais-indicados-list.tsx:76 | `filter` keeps every copy of an item that satisfies the predicate and no copy of one that does not |
| Collections.FilterIsSubseq | components/profissionais/profissionais-indicados-list.tsx:76 | `filter` keeps the relative order |
| Collections.FilterConcat | components/profissionais-indicados/profissional-indicado-form.tsx:664-666 | filtering a concatenation filters each part |
| Collections.Dedup | components/profissionais/profissionais-indicados-list.tsx:74 | `new Set` keeps each item once and exactly the items of the input |
| Collections.DedupOrder | components/profissionais/profissionais-indicados-list.tsx:74 | items come out in first-occurrence order |
| ListScreen.FilterSpec | components/profissionais/profissionais-list.tsx:58-63 | a filtered list is an order-preserving sublist of exactly the kept items, holding every copy of each |
| ListScreen.RemoveByIdSpec | components/profissionais/profissionais-list.tsx:104 | removal by id is an order-preserving sublist holding exactly the items with another id, every copy of each; an absent id changes nothing |
| ListScreen.RemoveByIdIdempotent | components/profissionais/profissionais-list.tsx:104 | removing an id twice equals removing it once |
| ListScreen.SetByIdSpec | components/profissionais/profissionais-list.tsx:68 | an id-keyed update keeps the ids, is idempotent and changes nothing for an absent id |
| ListScreen.EmptyFieldMatchesIff | components/profissionais-indicados/profissionais-indicados-list.tsx:111-114 | an empty field matches only the empty term |
| ListScreen.OfferedStatusSpec | components/usuarios/usuarios-list.tsx:225-233 | the offered status is always different from the current one |
| ProfissionaisIndicadosList.FilteredSpec | components/profissionais/profissionais-indicados-list.tsx:76-89 | an order-preserving sublist of exactly the items matching the term in nome, email, especialidade or a present referrer, and both selectors ignoring case, every copy of each kept |
| ProfissionaisIndicadosList.InitialFiltersKeepAll | components/profissionais/profissionais-indicados-list.tsx:45-52 | an empty term with "todos" and "todas" keeps every item |
| ProfissionaisIndicadosList.EspecialidadesSpec | components/profissionais/profissionais-indicados-list.tsx:74 | "todas" first, then each lower-cased specialty exactly once in first-occurrence order |
| ProfissionaisIndicadosList.SetStatusSpec | components/profissionais/profissionais-indicados-list.tsx:115 | only items with the id take the status; the length and the others are unchanged |
| ProfissionaisIndicadosList.Screen.HandleDesativar | components/profissionais/profissionais-indicados-list.tsx:91-110 | no target: nothing; otherwise success sets "Inativo", failure keeps the list, the target is cleared |
| ProfissionaisIndicadosList.Screen.HandleAtivar | components/profissionais/profissionais-indicados-list.tsx:112-127 | success sets "Aprovado" on the id; failure keeps the list |
| IndicadosList.FilteredSpec | components/profissionais-indicados/profissionais-indicados-list.tsx:108-116 | an order-preserving sublist of the items whose name or email holds the term, every copy of each kept; the selectors change nothing |
| IndicadosList.MissingEmail | components/profissionais-indicados/profissionais-indicados-list.tsx:112-114 | without an email an item matches on its name only, its email only on the empty term |
| IndicadosList.SetActive | components/profissionais-indicados/profissionais-indicados-list.tsx:148-150 | only items with the id change, and only in `isActive` |
| IndicadosList.OfferedActionFlips | components/profissionais-indicados/profissionais-indicados-list.tsx:201-219 | the offered action flips the flag and touches no item with another id |
| IndicadosList.SetActiveIdempotent | components/profissionais-indicados/profissionais-indicados-list.tsx:148-150 | setting the flag twice equals once |
| IndicadosList.Screen.HandleDesativar | components/profissionais-indicados/profissionais-indicados-list.tsx:118-143 | no target: nothing; otherwise success clears the flag, failure keeps the list, the target is cleared |
| IndicadosList.Screen.HandleAtivar | components/profissionais-indicados/profissionais-indicados-list.tsx:145-162 | success sets the flag on the id; failure keeps the list |
| CadastrosList.FilteredSpec | components/cadastros/cadastros-list.tsx:90-101 | an order-preserving sublist of exactly the records matching the term in nome, email or tipo, and both selectors, every copy of each kept |
| CadastrosList.InitialFiltersKeepAll | components/cadastros/cadastros-list.tsx:37-43 | an empty term with both selectors at "todos" keeps every record |
| CadastrosList.TiposCadastroSpec | components/cadastros/cadastros-list.tsx:88 | "todos" first, then each lower-cased tipo exactly once in first-occurrence order |
| CadastrosList.OfferedStatusSpec | components/cadastros/cadastros-list.tsx:132-142 | "Ativo" is offered "Inativo", anything else "Ativo", and the detail switch agrees |
| CadastrosList.Screen.HandleAlterarStatus | components/cadastros/cadastros-list.tsx:64-85 | "Ativo" calls activate and anything else deactivate; success sets the status on the id; failure keeps the list |
| AprovacaoList.WithoutSpec | components/profissionais/aprovacao-list.tsx:51 | after removal no item has the id and the others keep their order and every copy |
| AprovacaoList.CanConfirmIff | components/profissionais/aprovacao-list.tsx:196 | a rejection can be confirmed exactly when the reason has a non-space character |
| AprovacaoList.Screen.HandleAprovar | components/profissionais/aprovacao-list.tsx:48-63 | success removes the id; failure keeps the queue; the queue never grows |
| AprovacaoList.Screen.HandleRejeitar | components/profissionais/aprovacao-list.tsx:65-85 | no target: nothing; otherwise the target and reason are sent, success removes it, and target and reason are cleared |
| AprovacaoList.Screen.ConfirmarRejeicao | components/profissionais/aprovacao-list.tsx:65-196 | a blank reason, or no target, sends nothing and changes nothing; otherwise the target is rejected with the reason, a success takes it out of the queue, a failure keeps the queue, and the dialog is cleared; a sent reason is never blank |
| AprovacaoList.Screen.Cancelar | components/profissionais/aprovacao-list.tsx:193 | cancelling drops the target |
| ProfissionaisList.FilteredSpec | components/profissionais/profissionais-list.tsx:58-63 | an order-preserving sublist of exactly the items matching the term in nome, email or especialidade, every copy of each kept; "" keeps all |
| ProfissionaisList.WithoutSpec | components/profissionais/profissionais-list.tsx:104 | after deletion no item has the id and the others keep their order and every copy |
| ProfissionaisList.ReviewIsFinal | components/profissionais/profissionais-list.tsx:204-215 | after approval or rejection an item is offered review only if it had another id and was "Pendente" |
| ProfissionaisList.Screen.HandleAprovar | components/profissionais/profissionais-list.tsx:65-80 | success sets "Aprovado" on the id; failure keeps the list |
| ProfissionaisList.Screen.HandleRejeitar | components/profissionais/profissionais-list.tsx:82-97 | success sets "Rejeitado" on the id; failure keeps the list |
| ProfissionaisList.Screen.HandleExcluir | components/profissionais/profissionais-list.tsx:99-118 | no target: nothing; otherwise success removes the id, failure keeps the list, the target is cleared |
| LojasList.FilteredSpec | components/lojas/lojas-list.tsx:61-66 | an order-preserving sublist of exactly the stores matching the term in nome, city or state, every copy of each kept; "" keeps all |
| LojasList.WithoutSpec | components/lojas/lojas-list.tsx:73 | after deletion no store has the id and the others keep their order and every copy |
| LojasList.OfferedStatusSpec | components/lojas/lojas-list.tsx:229-237 | "Ativa" is offered "Inativa"; "Suspensa" and anything else "Ativa" |
| LojasList.FindLoja | components/lojas/lojas-list.tsx:115 | none exactly when no store has the id, otherwise the first store with it |
| LojasList.Screen.HandleExcluir | components/lojas/lojas-list.tsx:68-87 | no target: nothing; otherwise success removes the id, failure keeps the list, the target is cleared |
| LojasList.Screen.HandleAlterarStatus | components/lojas/lojas-list.tsx:89-110 | "Ativa" calls activate and anything else deactivate; success sets the status on the id |
| LojasList.Screen.VerProfissionais | components/lojas/lojas-list.tsx:112-129 | the first store with the id is shown; its professionals replace the list only on success; loading ends |
| UsuariosList.FilteredSpec | components/usuarios/usuarios-list.tsx:66-70 | an order-preserving sublist of exactly the users matching the term in nome or email, every copy of each kept; "" keeps all |
| UsuariosList.WithoutSpec | components/usuarios/usuarios-list.tsx:77 | after deletion no user has the id and the others keep their order and every copy |
| UsuariosList.OfferedStatusSpec | components/usuarios/usuarios-list.tsx:225-233 | "Ativo" is offered "Inativo" and anything else "Ativo" |
| UsuariosList.Screen.HandleExcluir | components/usuarios/usuarios-list.tsx:72-91 | no target: nothing; otherwise success removes the id, failure keeps the list, the target is cleared |
| UsuariosList.Screen.HandleAlterarStatus | components/usuarios/usuarios-list.tsx:93-114 | "Ativo" calls activate and anything else deactivate; success sets the status on the id |
| UsuariosList.Screen.HandleRedefinirSenha | components/usuarios/usuarios-list.tsx:116-136 | no target: nothing; otherwise the reset is requested for it and both target and flag end cleared |
| AmantesList.FilteredSpec | components/amantes-de-decoracao/amantes-de-decoracao-list.tsx:83-90 | an order-preserving sublist of exactly the items matching name, Instagram or TikTok ignoring case or the contact as typed, every copy of each kept; "" keeps all in order |
| AmantesList.ContactIsCaseSensitive | components/amantes-de-decoracao/amantes-de-decoracao-list.tsx:86 | "A" does not find the contact "ana", though it does find the name "ana" |
| AmantesList.WithoutSpec | components/amantes-de-decoracao/amantes-de-decoracao-list.tsx:97-99 | after deletion no item has the id and the others keep their order and every copy |
| AmantesList.HandleWithOrWithoutAt | components/amantes-de-decoracao/amantes-de-decoracao-list.tsx:181-198 | "@abc" and "abc" give the same links, and the labels read "@abc" |
| AmantesList.HandleRemovesFirstAtOnly | components/amantes-de-decoracao/amantes-de-decoracao-list.tsx:181-198 | only the first "@" of a handle is removed |
| AmantesList.Screen.HandleDelete | components/amantes-de-decoracao/amantes-de-decoracao-list.tsx:92-113 | no target: nothing; otherwise success removes the id, failure keeps the list, the target is cleared (the handler as intended) |

## Left out

- Remote calls are not modelled. This covers `apiClient`, the professionals, registrations, users and stores services, and the postal-code `fetch`. Each call is a succeed-or-fail parameter (`ok: bool`) or a `Reply` of its answer.
- `cadastrarLoja`'s random id and current date are parameters of `CadastrarLoja`.
- The five records of the development mock are not reproduced. The table's constructor takes its initial records.
- Timers, the simulated delay and redirects of the login page, `router.push`, `toast`, `console` and the initial loading effects of each screen are left out. Handlers are atomic steps, so React re-rendering and interleaved clicks are not modelled.
- The intermediate `true` of the loading flags inside one handler is left out. Only the value a handler leaves behind is stated.
- `formatDate` (locale date formatting) and `cn` (class-name merging) in lib/utils.ts are left out: they are presentation only.
- Zod's email check is the parameter `isEmail`. zod's internals are not modelled.
- `toLowerCase` and `toUpperCase` are ASCII-only. String lengths count code points, not UTF-16 units.
- Store and form numbers are unbounded integers. The store rating is a `real`.
- Ids are strings, so a numeric id 0 counting as "no target" is not modelled.
- Optional zod fields are strings that start as "". The distinction between an absent key and `undefined` in object spreads is not modelled.
- The other two professional forms, the store form, the sidebar and the dashboard widgets are left out. They only pass declarative schemas to services or render static data.
- All JSX rendering, badges, dialogs and animation are left out. The only exceptions are the menus whose offered action is modelled.
- LojasService.LojasTable.AdicionarProfissionalALoja and LojasService.LojasTable.RemoverProfissionalDaLoja: the updated professional record itself lives in the professionals service and is not modelled. Only its success is.
- CadastrosList.Screen: the initial load of the records through `listarLojasParceirasPendentes` is left out, like every screen's initial load.
- LojasService.LojasTable: `cadastrarLoja` and `atualizarLoja` hand back the very object they store, so the later in-place status and counter updates change what the caller holds. The model returns a copy, so that sharing is not modelled; no other part of the dashboard relies on it.

## Findings

| source | as written | input that shows it | evidently intended | confidence | as-written member | corrected member |
|---|---|---|---|---|---|---|
| components/amantes-de-decoracao/amantes-de-decoracao-list.tsx:96 | `handleDelete` calls `lojasService.deletePartnerSupplier`, which the store service (services/fornecedores-parceiros.ts:129-418) does not define; the call throws, the error toast appears and the list is kept | any confirmed deletion, for example of the first listed person: they stay on the list | the person is deleted remotely and, on success, taken off the list | not executed | AmantesList.Screen.HandleDeleteAsWritten, AmantesList.DeletedPersonStaysAsWritten | AmantesList.Screen.HandleDelete |
