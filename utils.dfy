/** The weekday table shared by the screens and its label lookup. */
module Utils {
  import opened Wrappers
  import opened Text
  import Collections

  datatype Day = Day(id: string, caption: string)

  /** `diasDaSemana`: the backend's weekday ids with their Portuguese labels. */
  const DiasDaSemana: seq<Day> := [
    Day("SUNDAY", "Domingo"),
    Day("MONDAY", "Segunda-feira"),
    Day("TUESDAY", "Terça-feira"),
    Day("WEDNESDAY", "Quarta-feira"),
    Day("THURSDAY", "Quinta-feira"),
    Day("FRIDAY", "Sexta-feira"),
    Day("SATURDAY", "Sábado")
  ]

  function DayIds(days: seq<Day>): (ids: seq<string>)
    ensures |ids| == |days|
    ensures forall i :: 0 <= i < |days| ==> ids[i] == days[i].id
  {
    seq(|days|, i requires 0 <= i < |days| => days[i].id)
  }

  function HasId(key: string): Day -> bool {
    (d: Day) => d.id == key
  }

  /** `getDayLabelById`: the label of the day whose id is the upper-cased argument;
      an unknown id is returned as it was given. */
  function DayLabelById(id: string): string {
    var day := Collections.Find(DiasDaSemana, HasId(Upper(id)));
    if day.Some? then day.value.caption else id
  }

  /** No two days share an id, so the lookup has one answer at most. */
  lemma DayIdsDistinct()
    ensures Collections.Distinct(DayIds(DiasDaSemana))
  {
  }

  /** Every id is already upper case: upper-casing an id gives the id back. */
  lemma DayIdsUpperCase()
    ensures forall i :: 0 <= i < |DiasDaSemana| ==> Upper(DiasDaSemana[i].id) == DiasDaSemana[i].id
  {
  }

  /** In a table of distinct ids, the first day with a key is the only one. */
  lemma FirstIndexOfId(days: seq<Day>, key: string, i: nat)
    requires forall a, b :: 0 <= a < b < |days| ==> days[a].id != days[b].id
    requires i < |days| && days[i].id == key
    ensures Collections.FirstIndex(days, HasId(key)) == i
  {
    forall j | 0 <= j < |days| && j != i ensures !HasId(key)(days[j]) {
      HasIdIff(key, days[j]);
    }
    HasIdIff(key, days[i]);
    Collections.FirstIndexUnique(days, HasId(key), i);
  }

  /** Distinct ids, stated on the days themselves. */
  lemma DistinctIds(days: seq<Day>)
    requires Collections.Distinct(DayIds(days))
    ensures forall a, b :: 0 <= a < b < |days| ==> days[a].id != days[b].id
  {
    var ids := DayIds(days);
    forall a, b | 0 <= a < b < |days| ensures days[a].id != days[b].id {
      assert ids[a] != ids[b];
    }
  }

  lemma HasIdIff(key: string, d: Day)
    ensures HasId(key)(d) <==> d.id == key
  {
  }

  /** In a table of distinct ids, looking a key up finds the one day with that id. */
  lemma FoundIn(days: seq<Day>, key: string, i: nat)
    requires forall a, b :: 0 <= a < b < |days| ==> days[a].id != days[b].id
    requires i < |days| && days[i].id == key
    ensures Collections.Find(days, HasId(key)) == Some(days[i])
  {
    FirstIndexOfId(days, key, i);
  }

  /** Looking up a key no day has finds nothing. */
  lemma NotFoundIn(days: seq<Day>, key: string)
    requires forall i :: 0 <= i < |days| ==> days[i].id != key
    ensures Collections.Find(days, HasId(key)) == None
  {
    NoDayHasId(days, key);
  }

  lemma NoDayHasId(days: seq<Day>, key: string)
    requires forall i :: 0 <= i < |days| ==> days[i].id != key
    ensures Collections.FirstIndex(days, HasId(key)) == -1
  {
    forall j | 0 <= j < |days| ensures !HasId(key)(days[j]) {
    }
  }

  /** The lookup answers from the table: the label of the day whose id is the
      upper-cased argument when there is one, the argument itself otherwise. */
  lemma DayLabelByIdSpec(id: string)
    ensures forall i :: 0 <= i < |DiasDaSemana| && DiasDaSemana[i].id == Upper(id) ==>
              DayLabelById(id) == DiasDaSemana[i].caption
    ensures (forall i :: 0 <= i < |DiasDaSemana| ==> DiasDaSemana[i].id != Upper(id)) ==>
              DayLabelById(id) == id
  {
    DayIdsDistinct();
    DistinctIds(DiasDaSemana);
    forall i | 0 <= i < |DiasDaSemana| && DiasDaSemana[i].id == Upper(id)
      ensures DayLabelById(id) == DiasDaSemana[i].caption
    {
      FoundIn(DiasDaSemana, Upper(id), i);
    }
    if forall i :: 0 <= i < |DiasDaSemana| ==> DiasDaSemana[i].id != Upper(id) {
      NotFoundIn(DiasDaSemana, Upper(id));
    }
  }

  /** The lookup ignores the case of its argument. */
  lemma DayLabelIgnoresCase(id: string)
    ensures (exists i :: 0 <= i < |DiasDaSemana| && DiasDaSemana[i].id == Upper(id)) ==>
              DayLabelById(Lower(id)) == DayLabelById(id)
  {
    UpperOfLower(id);
  }

  /** Every id of the table ends in "Y" ("…DAY"). */
  lemma DayIdsEndInY()
    ensures forall i :: 0 <= i < |DiasDaSemana| ==>
      |DiasDaSemana[i].id| > 0 && DiasDaSemana[i].id[|DiasDaSemana[i].id| - 1] == 'Y'
  {
  }

  /** A key that does not end like every id of a table is none of them. */
  lemma KeyNotInDays(days: seq<Day>, key: string)
    requires forall i :: 0 <= i < |days| ==> |days[i].id| > 0 && days[i].id[|days[i].id| - 1] == 'Y'
    requires key != [] && key[|key| - 1] != 'Y'
    ensures forall i :: 0 <= i < |days| ==> days[i].id != key
  {
  }

  /** An id that does not end in "y" or "Y" is not in the table, so the lookup hands
      it back unchanged. */
  lemma NotATableId(id: string)
    requires id != [] && UpperChar(id[|id| - 1]) != 'Y'
    ensures DayLabelById(id) == id
  {
    DayIdsEndInY();
    KeyNotInDays(DiasDaSemana, Upper(id));
    DayLabelByIdSpec(id);
  }

  lemma UpperMonday()
    ensures Upper("monday") == "MONDAY"
  {
    var u := Upper("monday");
    assert u[0] == 'M' && u[1] == 'O' && u[2] == 'N' && u[3] == 'D' && u[4] == 'A' && u[5] == 'Y';
  }

  /** The known ids in any case give their label; the form's own lower-case
      Portuguese ids are not in the table and come back unchanged. */
  lemma DayLabelExamples()
    ensures DayLabelById("MONDAY") == "Segunda-feira"
    ensures DayLabelById("monday") == "Segunda-feira"
    ensures DayLabelById("segunda") == "segunda"
  {
    DayIdsUpperCase();
    assert DiasDaSemana[1].id == "MONDAY" && Upper(DiasDaSemana[1].id) == "MONDAY";
    DayLabelByIdSpec("MONDAY");
    UpperMonday();
    DayLabelByIdSpec("monday");
    NotATableId("segunda");
  }
}
