/**
 * The registration page: the schema that gates submission, the store writes
 * and navigation done on submit, and the promotion catalogue with the
 * subtitle shown under each option of the promotion picker.
 */
module Welcome {
  import opened Strings

  // ---------------------------------------------------------------------
  // Form schema
  // ---------------------------------------------------------------------

  datatype FormValues = FormValues(name: string, email: string, promotion: string)

  /** The problems the schema can report, one per check of the schema. */
  datatype Issue = NameTooShort | NameTooLong | EmailInvalid | EmailTooLong | PromotionMissing

  const NameIssues: set<Issue> := {NameTooShort, NameTooLong}
  const EmailIssues: set<Issue> := {EmailInvalid, EmailTooLong}
  const PromotionIssues: set<Issue> := {PromotionMissing}

  /** The values the form starts with. */
  const Defaults := FormValues("", "", "")

  /**
   * Every issue the schema reports for `v`.  The e-mail syntax check belongs
   * to the validation library and is passed in as `isEmail`.
   */
  function Issues(v: FormValues, isEmail: string -> bool): (r: set<Issue>)
    ensures r * NameIssues == {} <==> 2 <= |v.name| <= 100
    ensures r * EmailIssues == {} <==> isEmail(v.email) && |v.email| <= 255
    ensures |v.email| > 255 ==> EmailTooLong in r
    ensures r * PromotionIssues == {} <==> v.promotion != ""
  {
    (if |v.name| < 2 then {NameTooShort} else {})
    + (if |v.name| > 100 then {NameTooLong} else {})
    + (if isEmail(v.email) then {} else {EmailInvalid})
    + (if |v.email| > 255 then {EmailTooLong} else {})
    + (if |v.promotion| < 1 then {PromotionMissing} else {})
  }

  /** The schema accepts `v`: no check reports an issue, so submission goes ahead. */
  predicate Accepts(v: FormValues, isEmail: string -> bool) {
    Issues(v, isEmail) == {}
  }

  /** What acceptance amounts to, field by field. */
  lemma AcceptsIff(v: FormValues, isEmail: string -> bool)
    ensures Accepts(v, isEmail) <==>
      && 2 <= |v.name| <= 100
      && isEmail(v.email) && |v.email| <= 255
      && v.promotion != ""
  {
    var r := Issues(v, isEmail);
    assert r == r * NameIssues + r * EmailIssues + r * PromotionIssues;
  }

  /** The untouched form is rejected whatever the e-mail check says: the name and the promotion are missing. */
  lemma DefaultsRejected(isEmail: string -> bool)
    ensures NameTooShort in Issues(Defaults, isEmail)
    ensures PromotionMissing in Issues(Defaults, isEmail)
    ensures !Accepts(Defaults, isEmail)
  {
  }

  // ---------------------------------------------------------------------
  // Submission: local storage and navigation
  // ---------------------------------------------------------------------

  const DataKey := "globalWorkerData"
  const TutorialKey := "showTutorial"
  const TutorialFlag := "true"
  const HomePath := "/inicio"

  /** The store after the two writes of a submission whose serialised record is `record`. */
  function AfterSubmit(store: map<string, string>, record: string): (r: map<string, string>)
    ensures r.Keys == store.Keys + {DataKey, TutorialKey}
    ensures r[DataKey] == record && r[TutorialKey] == TutorialFlag
    ensures forall k :: k in store && k != DataKey && k != TutorialKey ==> r[k] == store[k]
  {
    store[DataKey := record][TutorialKey := TutorialFlag]
  }

  /** A serialisation that never maps two different records to the same text. */
  ghost predicate Injective(stringify: FormValues -> string) {
    forall a, b :: stringify(a) == stringify(b) ==> a == b
  }

  /** With an injective serialisation, the stored record identifies the submitted values. */
  lemma StoredRecordIdentifiesSubmission(
    stringify: FormValues -> string, s1: map<string, string>, s2: map<string, string>,
    d1: FormValues, d2: FormValues)
    requires Injective(stringify)
    requires AfterSubmit(s1, stringify(d1))[DataKey] == AfterSubmit(s2, stringify(d2))[DataKey]
    ensures d1 == d2
  {
  }

  /** The browser state a submission touches: local storage and the navigation history. */
  class Browser {
    var storage: map<string, string>
    var visited: seq<string>

    constructor (storage: map<string, string>)
      ensures this.storage == storage && visited == []
    {
      this.storage := storage;
      visited := [];
    }

    /** `localStorage.setItem(key, value)` */
    method SetItem(key: string, value: string)
      modifies this
      ensures storage == old(storage)[key := value]
      ensures visited == old(visited)
    {
      storage := storage[key := value];
    }

    /** `navigate(path)` */
    method Navigate(path: string)
      modifies this
      ensures visited == old(visited) + [path]
      ensures storage == old(storage)
    {
      visited := visited + [path];
    }
  }

  /** The submit handler: store the record and the tutorial flag, then go to the home page. */
  method OnSubmit(browser: Browser, data: FormValues, stringify: FormValues -> string)
    modifies browser
    ensures browser.storage == AfterSubmit(old(browser.storage), stringify(data))
    ensures browser.visited == old(browser.visited) + [HomePath]
  {
    browser.SetItem(DataKey, stringify(data));
    browser.SetItem(TutorialKey, TutorialFlag);
    browser.Navigate(HomePath);
  }

  // ---------------------------------------------------------------------
  // Promotion catalogue and option subtitles
  // ---------------------------------------------------------------------

  datatype Promotion = Promotion(value: string, cohort: string, modality: string, dates: string)

  const ModalitySep := " · "
  const DateRangeSep := " — "
  const WordSep := " "

  const Promotion113 := Promotion("promocion-113-online-espana-20250204", "Promoción 113", "Online · España", "4 feb 2025 — 27 feb 2026")
  const Promotion114 := Promotion("promocion-114-online-italia-20250203", "Promoción 114", "Online · Italia", "3 feb 2025 — 27 feb 2026")
  const Promotion115 := Promotion("promocion-115-online-europa-20250325", "Promoción 115", "Online · Europa", "25 mar 2025 — 13 mar 2026")
  const Promotion116 := Promotion("promocion-116-online-francia-20250317", "Promoción 116", "Online · Francia", "17 mar 2025 — 13 mar 2026")
  const Promotion117 := Promotion("promocion-117-semi-espana-20250422", "Promoción 117", "Semipresencial · España", "22 abr 2025 — 31 dic 2025")
  const Promotion118 := Promotion("promocion-118-online-italia-20250616", "Promoción 118", "Online · Italia", "16 jun 2025 — 24 abr 2026")
  const Promotion119 := Promotion("promocion-119-online-espana-20250609", "Promoción 119", "Online · España", "9 jun 2025 — 24 abr 2026")
  const Promotion120Semi := Promotion("promocion-120-semipresencial-espana-20250915", "Promoción 120", "Semipresencial · España", "15 sep 2025 — 15 may 2026")
  const Promotion120Online := Promotion("promocion-120-online-espana-20250915", "Promoción 120", "Online · España", "15 sep 2025 — 15 may 2026")
  const Promotion121Semi := Promotion("promocion-121-semipresencial-italia-20250915", "Promoción 121", "Semipresencial · Italia", "15 sep 2025 — 29 may 2026")
  const Promotion121Online := Promotion("promocion-121-online-italia-20250915", "Promoción 121", "Online · Italia", "15 sep 2025 — 29 may 2026")
  const Promotion122 := Promotion("promocion-122-online-fr-esp-eu-20250915", "Promoción 122", "Online · FR · ESP · EU", "15 sep 2025 — 29 may 2026")
  const Promotion123 := Promotion("promocion-123-presencial-espana-20251007", "Promoción 123", "Presencial · España", "7 oct 2025 — 28 mar 2026")

  /** The catalogue, in the order the picker lists it. */
  const Promotions: seq<Promotion> := [
    Promotion113, Promotion114, Promotion115, Promotion116,
    Promotion117, Promotion118, Promotion119, Promotion120Semi,
    Promotion120Online, Promotion121Semi, Promotion121Online, Promotion122,
    Promotion123
  ]

  /** The option keys are pairwise distinct, as their use as list keys requires. */
  lemma CatalogueValuesDistinct()
    ensures forall i, j :: 0 <= i < j < |Promotions| ==> Promotions[i].value != Promotions[j].value
  {
  }

  /** `promo.modality.split(' · ')[0]` */
  function ModalityOnly(p: Promotion): string {
    Split(p.modality, ModalitySep)[0]
  }

  /** `promo.dates.split(' — ')[0]` */
  function StartDate(p: Promotion): string {
    Split(p.dates, DateRangeSep)[0]
  }

  /**
   * The modality shown is the text before the first " · ": a prefix of the
   * modality before whose end no " · " starts, and which is either the whole
   * modality or is followed by the separator.
   */
  lemma ModalityOnlyIsFirstPart(p: Promotion)
    ensures var r := ModalityOnly(p);
      && |r| <= |p.modality| && p.modality[..|r|] == r
      && Free(r, ModalitySep)
      && (forall j: nat :: j < |r| ==> !OccursAt(p.modality, ModalitySep, j))
      && (r == p.modality || OccursAt(p.modality, ModalitySep, |r|))
  {
    FirstPiece(p.modality, ModalitySep);
  }

  /** Likewise, the start date is the text before the first " — " of the date range. */
  lemma StartDateIsFirstPart(p: Promotion)
    ensures var r := StartDate(p);
      && |r| <= |p.dates| && p.dates[..|r|] == r
      && Free(r, DateRangeSep)
      && (forall j: nat :: j < |r| ==> !OccursAt(p.dates, DateRangeSep, j))
      && (r == p.dates || OccursAt(p.dates, DateRangeSep, |r|))
  {
    FirstPiece(p.dates, DateRangeSep);
  }

  /** The words of the start date, destructured as `[day, month, year]`. */
  function DateWords(p: Promotion): seq<string> {
    Split(StartDate(p), WordSep)
  }

  /** Element `i` of a destructured array, as a template literal renders it (`undefined` when missing). */
  function Word(words: seq<string>, i: nat): string {
    if i < |words| then words[i] else "undefined"
  }

  /** The option subtitle: modality, separator, then month and year of the start date. */
  function Subtitle(p: Promotion): string {
    var words := DateWords(p);
    ModalityOnly(p) + ModalitySep + Word(words, 1) + WordSep + Word(words, 2)
  }

  lemma ModalityOfParts(p: Promotion, head: string, tail: string)
    requires p.modality == head + ModalitySep + tail && '·' !in head
    ensures ModalityOnly(p) == head
  {
    SplitCons(head, tail, ModalitySep, 1);
  }

  lemma StartDateOfParts(p: Promotion, start: string, end: string)
    requires p.dates == start + DateRangeSep + end && '—' !in start
    ensures StartDate(p) == start
  {
    SplitCons(start, end, DateRangeSep, 1);
  }

  lemma WordsOfParts(start: string, day: string, month: string, year: string)
    requires start == day + WordSep + month + WordSep + year
    requires ' ' !in day && ' ' !in month && ' ' !in year
    ensures Split(start, WordSep) == [day, month, year]
  {
    SplitSingle(year, WordSep, 0);
    SplitCons(month, year, WordSep, 0);
    SplitCons(day, month + WordSep + year, WordSep, 0);
    assert start == day + WordSep + (month + WordSep + year);
  }

  /** The words of an entry's start date, when its date range is written out as parts. */
  lemma DateWordsOfParts(p: Promotion, start: string, end: string, day: string, month: string, year: string)
    requires p.dates == start + DateRangeSep + end && '—' !in start
    requires start == day + WordSep + month + WordSep + year
    requires ' ' !in day && ' ' !in month && ' ' !in year
    ensures DateWords(p) == [day, month, year]
  {
    StartDateOfParts(p, start, end);
    WordsOfParts(StartDate(p), day, month, year);
  }

  lemma Promotion113Dates()
    ensures DateWords(Promotion113) == ["4", "feb", "2025"]
  {
    DateWordsOfParts(Promotion113, "4 feb 2025", "27 feb 2026", "4", "feb", "2025");
  }

  lemma Promotion114Dates()
    ensures DateWords(Promotion114) == ["3", "feb", "2025"]
  {
    DateWordsOfParts(Promotion114, "3 feb 2025", "27 feb 2026", "3", "feb", "2025");
  }

  lemma Promotion115Dates()
    ensures DateWords(Promotion115) == ["25", "mar", "2025"]
  {
    DateWordsOfParts(Promotion115, "25 mar 2025", "13 mar 2026", "25", "mar", "2025");
  }

  lemma Promotion116Dates()
    ensures DateWords(Promotion116) == ["17", "mar", "2025"]
  {
    DateWordsOfParts(Promotion116, "17 mar 2025", "13 mar 2026", "17", "mar", "2025");
  }

  lemma Promotion117Dates()
    ensures DateWords(Promotion117) == ["22", "abr", "2025"]
  {
    DateWordsOfParts(Promotion117, "22 abr 2025", "31 dic 2025", "22", "abr", "2025");
  }

  lemma Promotion118Dates()
    ensures DateWords(Promotion118) == ["16", "jun", "2025"]
  {
    DateWordsOfParts(Promotion118, "16 jun 2025", "24 abr 2026", "16", "jun", "2025");
  }

  lemma Promotion119Dates()
    ensures DateWords(Promotion119) == ["9", "jun", "2025"]
  {
    DateWordsOfParts(Promotion119, "9 jun 2025", "24 abr 2026", "9", "jun", "2025");
  }

  lemma Promotion120SemiDates()
    ensures DateWords(Promotion120Semi) == ["15", "sep", "2025"]
  {
    DateWordsOfParts(Promotion120Semi, "15 sep 2025", "15 may 2026", "15", "sep", "2025");
  }

  lemma Promotion120OnlineDates()
    ensures DateWords(Promotion120Online) == ["15", "sep", "2025"]
  {
    DateWordsOfParts(Promotion120Online, "15 sep 2025", "15 may 2026", "15", "sep", "2025");
  }

  lemma Promotion121SemiDates()
    ensures DateWords(Promotion121Semi) == ["15", "sep", "2025"]
  {
    DateWordsOfParts(Promotion121Semi, "15 sep 2025", "29 may 2026", "15", "sep", "2025");
  }

  lemma Promotion121OnlineDates()
    ensures DateWords(Promotion121Online) == ["15", "sep", "2025"]
  {
    DateWordsOfParts(Promotion121Online, "15 sep 2025", "29 may 2026", "15", "sep", "2025");
  }

  lemma Promotion122Dates()
    ensures DateWords(Promotion122) == ["15", "sep", "2025"]
  {
    DateWordsOfParts(Promotion122, "15 sep 2025", "29 may 2026", "15", "sep", "2025");
  }

  lemma Promotion123Dates()
    ensures DateWords(Promotion123) == ["7", "oct", "2025"]
  {
    DateWordsOfParts(Promotion123, "7 oct 2025", "28 mar 2026", "7", "oct", "2025");
  }

  /**
   * Every start date in the catalogue splits into exactly day, month and
   * year, so the destructuring binds all three and no subtitle shows
   * `undefined`.  One conjunct per entry of `Promotions`.
   */
  lemma CatalogueDatesHaveThreeWords()
    ensures |DateWords(Promotion113)| == 3
    ensures |DateWords(Promotion114)| == 3
    ensures |DateWords(Promotion115)| == 3
    ensures |DateWords(Promotion116)| == 3
    ensures |DateWords(Promotion117)| == 3
    ensures |DateWords(Promotion118)| == 3
    ensures |DateWords(Promotion119)| == 3
    ensures |DateWords(Promotion120Semi)| == 3
    ensures |DateWords(Promotion120Online)| == 3
    ensures |DateWords(Promotion121Semi)| == 3
    ensures |DateWords(Promotion121Online)| == 3
    ensures |DateWords(Promotion122)| == 3
    ensures |DateWords(Promotion123)| == 3
  {
    Promotion113Dates();
    Promotion114Dates();
    Promotion115Dates();
    Promotion116Dates();
    Promotion117Dates();
    Promotion118Dates();
    Promotion119Dates();
    Promotion120SemiDates();
    Promotion120OnlineDates();
    Promotion121SemiDates();
    Promotion121OnlineDates();
    Promotion122Dates();
    Promotion123Dates();
  }

  /** Promotion 113 is listed as "Online · feb 2025". */
  lemma Promotion113Subtitle()
    ensures Subtitle(Promotion113) == "Online" + ModalitySep + "feb" + WordSep + "2025"
  {
    ModalityOfParts(Promotion113, "Online", "España");
    Promotion113Dates();
  }

  /** Promotion 114 is listed as "Online · feb 2025". */
  lemma Promotion114Subtitle()
    ensures Subtitle(Promotion114) == "Online" + ModalitySep + "feb" + WordSep + "2025"
  {
    ModalityOfParts(Promotion114, "Online", "Italia");
    Promotion114Dates();
  }

  /** Promotion 115 is listed as "Online · mar 2025". */
  lemma Promotion115Subtitle()
    ensures Subtitle(Promotion115) == "Online" + ModalitySep + "mar" + WordSep + "2025"
  {
    ModalityOfParts(Promotion115, "Online", "Europa");
    Promotion115Dates();
  }

  /** Promotion 116 is listed as "Online · mar 2025". */
  lemma Promotion116Subtitle()
    ensures Subtitle(Promotion116) == "Online" + ModalitySep + "mar" + WordSep + "2025"
  {
    ModalityOfParts(Promotion116, "Online", "Francia");
    Promotion116Dates();
  }

  /** Promotion 117 is listed as "Semipresencial · abr 2025". */
  lemma Promotion117Subtitle()
    ensures Subtitle(Promotion117) == "Semipresencial" + ModalitySep + "abr" + WordSep + "2025"
  {
    ModalityOfParts(Promotion117, "Semipresencial", "España");
    Promotion117Dates();
  }

  /** Promotion 118 is listed as "Online · jun 2025". */
  lemma Promotion118Subtitle()
    ensures Subtitle(Promotion118) == "Online" + ModalitySep + "jun" + WordSep + "2025"
  {
    ModalityOfParts(Promotion118, "Online", "Italia");
    Promotion118Dates();
  }

  /** Promotion 119 is listed as "Online · jun 2025". */
  lemma Promotion119Subtitle()
    ensures Subtitle(Promotion119) == "Online" + ModalitySep + "jun" + WordSep + "2025"
  {
    ModalityOfParts(Promotion119, "Online", "España");
    Promotion119Dates();
  }

  /** Promotion 120 (semi-presential) is listed as "Semipresencial · sep 2025". */
  lemma Promotion120SemiSubtitle()
    ensures Subtitle(Promotion120Semi) == "Semipresencial" + ModalitySep + "sep" + WordSep + "2025"
  {
    ModalityOfParts(Promotion120Semi, "Semipresencial", "España");
    Promotion120SemiDates();
  }

  /** Promotion 120 (online) is listed as "Online · sep 2025". */
  lemma Promotion120OnlineSubtitle()
    ensures Subtitle(Promotion120Online) == "Online" + ModalitySep + "sep" + WordSep + "2025"
  {
    ModalityOfParts(Promotion120Online, "Online", "España");
    Promotion120OnlineDates();
  }

  /** Promotion 121 (semi-presential) is listed as "Semipresencial · sep 2025". */
  lemma Promotion121SemiSubtitle()
    ensures Subtitle(Promotion121Semi) == "Semipresencial" + ModalitySep + "sep" + WordSep + "2025"
  {
    ModalityOfParts(Promotion121Semi, "Semipresencial", "Italia");
    Promotion121SemiDates();
  }

  /** Promotion 121 (online) is listed as "Online · sep 2025". */
  lemma Promotion121OnlineSubtitle()
    ensures Subtitle(Promotion121Online) == "Online" + ModalitySep + "sep" + WordSep + "2025"
  {
    ModalityOfParts(Promotion121Online, "Online", "Italia");
    Promotion121OnlineDates();
  }

  /** Promotion 122 is listed as "Online · sep 2025". */
  lemma Promotion122Subtitle()
    ensures Subtitle(Promotion122) == "Online" + ModalitySep + "sep" + WordSep + "2025"
  {
    ModalityOfParts(Promotion122, "Online", "FR · ESP · EU");
    Promotion122Dates();
  }

  /** Promotion 123 is listed as "Presencial · oct 2025". */
  lemma Promotion123Subtitle()
    ensures Subtitle(Promotion123) == "Presencial" + ModalitySep + "oct" + WordSep + "2025"
  {
    ModalityOfParts(Promotion123, "Presencial", "España");
    Promotion123Dates();
  }
}
