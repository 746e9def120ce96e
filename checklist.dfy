/** The checklist form shared by the maintenance-execution page and the daily vessel
    inspection page: the form record, the single-field update, the inspected-items
    toggle, and the submission checks (required fields, year range, damage details). */
module Checklist {
  import opened Browser
  import opened Lists

  /** The `form` state. `subject` is the identified object: `equipamento` on the
      maintenance page, `embarcacao` on the vessel page. */
  datatype Form = Form(
    responsavel: string,
    dataVerificacao: string,
    subject: string,
    status: string,
    avaria: string,
    tipoAvaria: string,
    medidaCorretiva: string,
    tipoInspecao: string,
    itens: seq<string>,
    observacoes: string)

  /** The text fields an input, select, radio group or text area writes through `handleChange`. */
  datatype Field =
    | Responsavel | DataVerificacao | Subject | Status | Avaria
    | TipoAvaria | MedidaCorretiva | TipoInspecao | Observacoes

  function Get(form: Form, field: Field): string {
    match field
    case Responsavel => form.responsavel
    case DataVerificacao => form.dataVerificacao
    case Subject => form.subject
    case Status => form.status
    case Avaria => form.avaria
    case TipoAvaria => form.tipoAvaria
    case MedidaCorretiva => form.medidaCorretiva
    case TipoInspecao => form.tipoInspecao
    case Observacoes => form.observacoes
  }

  /** `handleChange`: `{ ...prev, [name]: value }` sets the named field and no other. */
  function SetField(form: Form, field: Field, value: string): (r: Form)
    ensures Get(r, field) == value
    ensures forall g :: g != field ==> Get(r, g) == Get(form, g)
    ensures r.itens == form.itens
  {
    match field
    case Responsavel => form.(responsavel := value)
    case DataVerificacao => form.(dataVerificacao := value)
    case Subject => form.(subject := value)
    case Status => form.(status := value)
    case Avaria => form.(avaria := value)
    case TipoAvaria => form.(tipoAvaria := value)
    case MedidaCorretiva => form.(medidaCorretiva := value)
    case TipoInspecao => form.(tipoInspecao := value)
    case Observacoes => form.(observacoes := value)
  }

  /** The form the page starts with; `today` is the `YYYY-MM-DD` date of the client clock. */
  function InitialForm(today: string): (r: Form)
    ensures r.dataVerificacao == today && r.avaria == "Não" && r.itens == []
    ensures forall f :: f != DataVerificacao && f != Avaria ==> Get(r, f) == ""
  {
    Form("", today, "", "", "Não", "", "", "", [], "")
  }

  /** The form a technician or auditor gets back after a successful submission:
      the initial form, keeping the name of the person responsible. */
  function ResetForm(form: Form, today: string): (r: Form)
    ensures r.responsavel == form.responsavel && r.dataVerificacao == today
    ensures r.avaria == "Não" && r.itens == []
    ensures forall f :: f != Responsavel && f != DataVerificacao && f != Avaria ==> Get(r, f) == ""
  {
    InitialForm(today).(responsavel := form.responsavel)
  }

  // ---------------------------------------------------------------------------
  // The inspected-items checkbox

  /** `items.filter(i => i !== item)`. */
  function Without(items: seq<string>, item: string): (r: seq<string>)
    ensures forall x :: x in r <==> x in items && x != item
  {
    Filter(items, i => i != item)
  }

  /** `handleCheckboxChange` / `toggleItem`: remove every occurrence of a present item,
      append an absent one at the end. */
  function Toggle(items: seq<string>, item: string): (r: seq<string>)
    ensures item in r <==> item !in items
    ensures forall x :: x != item ==> (x in r <==> x in items)
  {
    if item in items then Without(items, item) else items + [item]
  }

  /** Toggling never disturbs the other items: ignoring the toggled item, the list is the
      same, in the same order, before and after. */
  lemma ToggleKeepsOthersInOrder(items: seq<string>, item: string)
    ensures Without(Toggle(items, item), item) == Without(items, item)
  {
    if item in items {
      FilterIdempotent(items, i => i != item);
    } else {
      FilterAppend(items, [item], i => i != item);
    }
  }

  /** Ticking an unticked item and unticking it again restores the list exactly. */
  lemma ToggleTwiceFromAbsent(items: seq<string>, item: string)
    requires item !in items
    ensures Toggle(Toggle(items, item), item) == items
  {
    FilterAppend(items, [item], i => i != item);
    FilterAllKept(items, i => i != item);
  }

  /** Unticking a ticked item and ticking it again moves it to the end (and keeps a
      single copy of it), so the round trip is the identity only when it was last. */
  lemma ToggleTwiceFromPresent(items: seq<string>, item: string)
    requires item in items
    ensures Toggle(Toggle(items, item), item) == Without(items, item) + [item]
  {
  }

  // ---------------------------------------------------------------------------
  // The year of the verification date: parseInt(dataVerificacao.split('-')[0])

  /** `s.split('-')[0]`: the longest prefix of `s` without a dash. */
  function BeforeDash(s: string): (r: string)
    ensures r <= s
    ensures '-' !in r
    ensures |r| < |s| ==> s[|r|] == '-'
  {
    if s == [] || s[0] == '-' then [] else [s[0]] + BeforeDash(s[1..])
  }

  /** The white space and line terminators JavaScript's `parseInt` skips at the start. */
  predicate IsJsWhitespace(c: char) {
    c == '\t' || c == '\n' || c == '\U{000B}' || c == '\U{000C}' || c == '\r' || c == ' '
    || c == '\U{00A0}' || c == '\U{1680}' || ('\U{2000}' <= c <= '\U{200A}')
    || c == '\U{2028}' || c == '\U{2029}' || c == '\U{202F}' || c == '\U{205F}'
    || c == '\U{3000}' || c == '\U{FEFF}'
  }

  function TrimStart(s: string): (r: string)
    ensures |r| <= |s| && r == s[|s| - |r|..]
    ensures r == [] || !IsJsWhitespace(r[0])
    ensures forall i :: 0 <= i < |s| - |r| ==> IsJsWhitespace(s[i])
  {
    if s != [] && IsJsWhitespace(s[0]) then
      var r := TrimStart(s[1..]);
      assert s[1..][|s| - 1 - |r|..] == s[|s| - |r|..];
      r
    else s
  }

  /** The value of `c` as a digit in base `radix` (10 or 16), if it is one. */
  function DigitIn(c: char, radix: nat): (d: Option<nat>)
    requires radix == 10 || radix == 16
    ensures d.Some? ==> d.value < radix
    ensures d.Some? <==> '0' <= c <= '9' || (radix == 16 && ('a' <= c <= 'f' || 'A' <= c <= 'F'))
    ensures '0' <= c <= '9' ==> d == Some(c as int - '0' as int)
  {
    var v := if '0' <= c <= '9' then c as int - '0' as int
             else if 'a' <= c <= 'z' then c as int - 'a' as int + 10
             else if 'A' <= c <= 'Z' then c as int - 'A' as int + 10
             else radix;
    if v < radix then Some(v) else None
  }

  predicate AllDigits(z: string, radix: nat)
    requires radix == 10 || radix == 16
  {
    forall i :: 0 <= i < |z| ==> DigitIn(z[i], radix).Some?
  }

  /** The longest prefix of `s` made of digits in base `radix`. */
  function LeadingDigits(s: string, radix: nat): (r: string)
    requires radix == 10 || radix == 16
    ensures r <= s && AllDigits(r, radix)
    ensures |r| < |s| ==> DigitIn(s[|r|], radix).None?
  {
    if s == [] || DigitIn(s[0], radix).None? then [] else [s[0]] + LeadingDigits(s[1..], radix)
  }

  /** The number the digit string `z` denotes in base `radix`. */
  function DigitsValue(z: string, radix: nat): nat
    requires radix == 10 || radix == 16
    requires AllDigits(z, radix)
  {
    if z == [] then 0 else DigitsValue(z[..|z| - 1], radix) * radix + DigitIn(z[|z| - 1], radix).value
  }

  /** `parseInt(s)` without a radix: skip leading white space, take an optional sign,
      read hexadecimal after `0x`/`0X` and decimal otherwise, stop at the first
      non-digit; no digit at all gives `NaN`, here `None`. */
  function ParseInt(s: string): (r: Option<int>)
    ensures TrimStart(s) == [] ==> r == None
    ensures r.Some? ==> TrimStart(s) != [] && (DigitIn(TrimStart(s)[0], 10).Some? || TrimStart(s)[0] in "+-")
    ensures r.Some? && r.value < 0 ==> TrimStart(s) != [] && TrimStart(s)[0] == '-'
  {
    var t := TrimStart(s);
    if t != [] && t[0] == '-' then
      match ParseUnsigned(t[1..])
      case None => None
      case Some(n) => Some(-(n as int))
    else if t != [] && t[0] == '+' then
      match ParseUnsigned(t[1..])
      case None => None
      case Some(n) => Some(n)
    else
      match ParseUnsigned(t)
      case None => None
      case Some(n) => Some(n)
  }

  /** The magnitude after the sign: hexadecimal after `0x`/`0X`, decimal otherwise. */
  function ParseUnsigned(u: string): Option<nat> {
    if |u| >= 2 && u[0] == '0' && (u[1] == 'x' || u[1] == 'X') then ParseDigits(u[2..], 16)
    else ParseDigits(u, 10)
  }

  /** The number the leading digits of `v` denote, or `None` when there are none. */
  function ParseDigits(v: string, radix: nat): (r: Option<nat>)
    requires radix == 10 || radix == 16
  {
    var z := LeadingDigits(v, radix);
    if z == [] then None else Some(DigitsValue(z, radix))
  }

  /** A non-empty run of decimal digits parses to the number it denotes. */
  lemma ParseDecimalDigits(z: string)
    requires z != [] && forall i :: 0 <= i < |z| ==> '0' <= z[i] <= '9'
    ensures AllDigits(z, 10) && ParseInt(z) == Some(DigitsValue(z, 10))
  {
    assert !IsJsWhitespace(z[0]);
    NoLeadingSpace(z);
    assert ParseUnsigned(z) == ParseDigits(z, 10);
    AllLeadingDigits(z, 10);
  }

  /** Text that does not start with white space is not trimmed. */
  lemma NoLeadingSpace(s: string)
    requires s == [] || !IsJsWhitespace(s[0])
    ensures TrimStart(s) == s
  {
  }

  /** A text made of digits only is its own run of leading digits. */
  lemma {:induction false} AllLeadingDigits(z: string, radix: nat)
    requires radix == 10 || radix == 16
    requires AllDigits(z, radix)
    ensures LeadingDigits(z, radix) == z
  {
    if z != [] {
      assert AllDigits(z[1..], radix) by {
        forall i | 0 <= i < |z[1..]| ensures DigitIn(z[1..][i], radix).Some? {
          assert z[1..][i] == z[i + 1];
        }
      }
      AllLeadingDigits(z[1..], radix);
      assert [z[0]] + z[1..] == z;
    }
  }

  /** The year check: the parsed year is refused below 2000 or above next year. `NaN`
      compares false with everything, so an unparseable year is never refused. */
  predicate YearRejected(date: string, currentYear: int)
    ensures YearRejected(date, currentYear) <==>
              ParseInt(BeforeDash(date)).Some? && !(2000 <= ParseInt(BeforeDash(date)).value <= currentYear + 1)
  {
    match ParseInt(BeforeDash(date))
    case None => false
    case Some(year) => year < 2000 || year > currentYear + 1
  }

  function Decimal(c: char): int {
    c as int - '0' as int
  }

  /** Four decimal digits denote the number written with them. */
  lemma FourDigitsValue(p: string)
    requires |p| == 4 && forall i :: 0 <= i < 4 ==> '0' <= p[i] <= '9'
    ensures AllDigits(p, 10)
    ensures DigitsValue(p, 10) == Decimal(p[0]) * 1000 + Decimal(p[1]) * 100 + Decimal(p[2]) * 10 + Decimal(p[3])
  {
    assert AllDigits(p, 10);
    var p1, p2, p3 := p[..1], p[..2], p[..3];
    assert p1[..0] == [] && p2[..1] == p1 && p3[..2] == p2 && p[..3] == p3;
    assert DigitsValue(p1, 10) == Decimal(p[0]);
    assert DigitsValue(p2, 10) == Decimal(p[0]) * 10 + Decimal(p[1]);
    assert DigitsValue(p3, 10) == (Decimal(p[0]) * 10 + Decimal(p[1])) * 10 + Decimal(p[2]);
  }

  /** Before the first dash of a `YYYY-...` text stand exactly its four year characters. */
  lemma YearField(date: string)
    requires |date| >= 5 && date[4] == '-'
    requires forall i :: 0 <= i < 4 ==> '0' <= date[i] <= '9'
    ensures BeforeDash(date) == date[..4]
  {
  }

  /** For a `YYYY-MM-DD` date the check reads the four year digits, so it refuses the
      date exactly when that year lies outside 2000 .. currentYear + 1. */
  lemma IsoDateYear(date: string, currentYear: int)
    requires |date| >= 5 && date[4] == '-'
    requires forall i :: 0 <= i < 4 ==> '0' <= date[i] <= '9'
    ensures var year := Decimal(date[0]) * 1000 + Decimal(date[1]) * 100 + Decimal(date[2]) * 10 + Decimal(date[3]);
            ParseInt(BeforeDash(date)) == Some(year)
            && (YearRejected(date, currentYear) <==> year < 2000 || year > currentYear + 1)
  {
    IsoDateYearParse(date);
  }

  /** The year of a `YYYY-...` text is the number its four digits denote. */
  lemma IsoDateYearParse(date: string)
    requires |date| >= 5 && date[4] == '-'
    requires forall i :: 0 <= i < 4 ==> '0' <= date[i] <= '9'
    ensures ParseInt(BeforeDash(date))
            == Some(Decimal(date[0]) * 1000 + Decimal(date[1]) * 100 + Decimal(date[2]) * 10 + Decimal(date[3]))
  {
    YearField(date);
    YearValue(date);
  }

  /** The first four characters, when they are decimal digits, parse to the number
      written with them. */
  lemma YearValue(date: string)
    requires |date| >= 4 && forall i :: 0 <= i < 4 ==> '0' <= date[i] <= '9'
    ensures ParseInt(date[..4])
            == Some(Decimal(date[0]) * 1000 + Decimal(date[1]) * 100 + Decimal(date[2]) * 10 + Decimal(date[3]))
  {
    var p := date[..4];
    var year := Decimal(date[0]) * 1000 + Decimal(date[1]) * 100 + Decimal(date[2]) * 10 + Decimal(date[3]);
    assert ParseInt(p) == Some(year) by {
      FourDigitsValue(p);
      assert DigitsValue(p, 10) == year by {
        assert p[0] == date[0] && p[1] == date[1] && p[2] == date[2] && p[3] == date[3];
      }
      ParseDecimalDigits(p);
    }
  }

  /** A text that starts with a letter holds no number for `parseInt`. */
  lemma LetterIsNotANumber(p: string)
    requires |p| > 0 && ('a' <= p[0] <= 'z' || 'A' <= p[0] <= 'Z')
    ensures ParseInt(p) == None
  {
    assert TrimStart(p) == p;
    assert ParseUnsigned(p) == None by {
      assert LeadingDigits(p, 10) == [];
    }
  }

  /** A date whose text starts with a letter has no number before its first dash, so
      `parseInt` yields `NaN` and the year check lets it through. */
  lemma LetterYearNotRejected(date: string, currentYear: int)
    requires |date| > 0 && ('a' <= date[0] <= 'z' || 'A' <= date[0] <= 'Z')
    ensures ParseInt(BeforeDash(date)) == None && !YearRejected(date, currentYear)
  {
    var p := BeforeDash(date);
    assert |p| > 0 && p[0] == date[0];
    LetterIsNotANumber(p);
  }

  // ---------------------------------------------------------------------------
  // The submission checks of `handleSubmit`, in the order the page runs them

  datatype Verdict = Ready | MissingRequired | InvalidDate | MissingDamageDetails

  /** The message each refusal shows. */
  function VerdictMessage(v: Verdict): (m: string)
    ensures m == "" <==> v == Ready
  {
    match v
    case Ready => ""
    case MissingRequired => "Preencha todos os campos obrigatórios."
    case InvalidDate => "Data inválida!"
    case MissingDamageDetails => "Descreva o tipo de avaria e a medida corretiva."
  }

  /** The five fields the page requires. */
  const RequiredFields: set<Field> := {Responsavel, DataVerificacao, Subject, Status, TipoInspecao}

  predicate RequiredMissing(form: Form)
    ensures !RequiredMissing(form) <==> forall f :: f in RequiredFields ==> Get(form, f) != ""
  {
    form.responsavel == "" || form.dataVerificacao == "" || form.subject == ""
    || form.status == "" || form.tipoInspecao == ""
  }

  /** Required fields first, then the year, then (only for `avaria == "Sim"`) the damage
      type and corrective measure; the first failing check decides. */
  function Check(form: Form, currentYear: int): (r: Verdict)
    ensures r == Ready <==>
              form.responsavel != "" && form.dataVerificacao != "" && form.subject != ""
              && form.status != "" && form.tipoInspecao != ""
              && !YearRejected(form.dataVerificacao, currentYear)
              && (form.avaria == "Sim" ==> form.tipoAvaria != "" && form.medidaCorretiva != "")
    ensures r == MissingRequired <==> RequiredMissing(form)
    ensures r == InvalidDate <==> !RequiredMissing(form) && YearRejected(form.dataVerificacao, currentYear)
    ensures r == MissingDamageDetails <==>
              !RequiredMissing(form) && !YearRejected(form.dataVerificacao, currentYear)
              && form.avaria == "Sim" && (form.tipoAvaria == "" || form.medidaCorretiva == "")
  {
    if RequiredMissing(form) then MissingRequired
    else if YearRejected(form.dataVerificacao, currentYear) then InvalidDate
    else if form.avaria == "Sim" && (form.tipoAvaria == "" || form.medidaCorretiva == "") then MissingDamageDetails
    else Ready
  }

  /** Unless damage is reported as "Sim", the damage type and corrective measure are never looked at. */
  lemma DamageDetailsOnlyForSim(form: Form, currentYear: int, tipoAvaria: string, medidaCorretiva: string)
    requires form.avaria != "Sim"
    ensures Check(form.(tipoAvaria := tipoAvaria, medidaCorretiva := medidaCorretiva), currentYear) == Check(form, currentYear)
  {
  }

  /** The inspected items and the remarks are optional: they never change the verdict. */
  lemma OptionalFieldsIgnored(form: Form, currentYear: int, itens: seq<string>, observacoes: string)
    ensures Check(form.(itens := itens, observacoes := observacoes), currentYear) == Check(form, currentYear)
  {
  }

  /** The form handed back after a submission cannot be sent again as it is: its
      subject, status and inspection type are empty. */
  lemma ResetFormIsIncomplete(form: Form, today: string, currentYear: int)
    ensures ResetForm(form, today).responsavel == form.responsavel
    ensures Check(ResetForm(form, today), currentYear) == MissingRequired
  {
  }
}
