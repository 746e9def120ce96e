/** The daily vehicle inspection page: ten separate state variables, each set by its own
    input, the item toggle, and a submit that checks four fields only and inserts a row
    whose column names are the snake_case forms of four of the state names. */
module Vehicle {
  import opened Browser
  import opened Roles
  import opened Guard
  import Checklist

  /** The values of the ten input state variables, under their names on the page. */
  datatype Entry = Entry(
    responsavel: string,
    dataVerificacao: string,
    veiculo: string,
    status: string,
    avaria: string,
    tipoAvaria: string,
    medidasCorretivas: string,
    tipoInspecao: string,
    itens: seq<string>,
    observacao: string)

  /** The row inserted into `inspecao_veicular`, under its column names. `email` and
      `role` are sent as they are, possibly `null`. */
  datatype Row = Row(
    responsavel: string,
    data_verificacao: string,
    veiculo: string,
    status: string,
    avaria: string,
    tipo_avaria: string,
    medidas_corretivas: string,
    tipo_inspecao: string,
    itens: seq<string>,
    observacao: string,
    email: Option<string>,
    role: Option<Role>)

  /** The page's inputs that write one text state variable each. */
  datatype Input =
    | Responsavel | DataVerificacao | Veiculo | Status | Avaria
    | TipoAvaria | MedidasCorretivas | TipoInspecao | Observacao

  /** The state variable an input writes. */
  function Value(e: Entry, input: Input): string {
    match input
    case Responsavel => e.responsavel
    case DataVerificacao => e.dataVerificacao
    case Veiculo => e.veiculo
    case Status => e.status
    case Avaria => e.avaria
    case TipoAvaria => e.tipoAvaria
    case MedidasCorretivas => e.medidasCorretivas
    case TipoInspecao => e.tipoInspecao
    case Observacao => e.observacao
  }

  /** `setX(e.target.value)` for the input's variable: that variable changes and no other. */
  function Assign(e: Entry, input: Input, value: string): (r: Entry)
    ensures Value(r, input) == value
    ensures forall other :: other != input ==> Value(r, other) == Value(e, other)
    ensures r.itens == e.itens
  {
    match input
    case Responsavel => e.(responsavel := value)
    case DataVerificacao => e.(dataVerificacao := value)
    case Veiculo => e.(veiculo := value)
    case Status => e.(status := value)
    case Avaria => e.(avaria := value)
    case TipoAvaria => e.(tipoAvaria := value)
    case MedidasCorretivas => e.(medidasCorretivas := value)
    case TipoInspecao => e.(tipoInspecao := value)
    case Observacao => e.(observacao := value)
  }

  /** The entry a row was built from: every column read back under its page name. */
  function FromRow(r: Row): Entry {
    Entry(r.responsavel, r.data_verificacao, r.veiculo, r.status, r.avaria,
          r.tipo_avaria, r.medidas_corretivas, r.tipo_inspecao, r.itens, r.observacao)
  }

  /** The insert's object literal: `dataVerificacao`, `tipoAvaria`, `medidasCorretivas`
      and `tipoInspecao` go to snake_case columns, the other six keep their names, and
      nothing is lost: reading the row back gives the entry, the email and the role. */
  function ToRow(e: Entry, email: Option<string>, role: Option<Role>): (r: Row)
    ensures FromRow(r) == e && r.email == email && r.role == role
  {
    Row(e.responsavel, e.dataVerificacao, e.veiculo, e.status, e.avaria,
        e.tipoAvaria, e.medidasCorretivas, e.tipoInspecao, e.itens, e.observacao, email, role)
  }

  /** The submit check: only the person responsible, the date, the vehicle and the status
      must be non-empty. */
  const RequiredInputs: set<Input> := {Responsavel, DataVerificacao, Veiculo, Status}

  predicate MissingRequired(e: Entry)
    ensures !MissingRequired(e) <==> forall i :: i in RequiredInputs ==> Value(e, i) != ""
  {
    e.responsavel == "" || e.dataVerificacao == "" || e.veiculo == "" || e.status == ""
  }

  /** Nothing but those four fields is checked: the inspection type (labelled as required),
      the damage answer and its details, the items and the remarks never block a submit,
      and there is no year check. */
  lemma OnlyFourFieldsChecked(e: Entry, tipoInspecao: string, avaria: string, tipoAvaria: string,
                              medidasCorretivas: string, itens: seq<string>, observacao: string, dataVerificacao: string)
    requires dataVerificacao != ""
    ensures MissingRequired(e.(tipoInspecao := tipoInspecao, avaria := avaria, tipoAvaria := tipoAvaria,
                               medidasCorretivas := medidasCorretivas, itens := itens, observacao := observacao))
            == MissingRequired(e)
    ensures MissingRequired(e.(dataVerificacao := dataVerificacao)) == (e.responsavel == "" || e.veiculo == "" || e.status == "")
  {
  }

  /** Unlike the maintenance and vessel pages, reporting damage ("sim") with no damage
      type or corrective measure is accepted, and a year the checklist pages refuse
      passes here. */
  lemma DamageWithoutDetailsAccepted(e: Entry, currentYear: int)
    requires e.responsavel != "" && e.veiculo != "" && e.status != ""
    ensures !MissingRequired(e.(avaria := "sim", tipoAvaria := "", medidasCorretivas := "", dataVerificacao := "1999-01-01"))
    ensures Checklist.YearRejected("1999-01-01", currentYear)
  {
    Checklist.IsoDateYear("1999-01-01", currentYear);
  }

  class VehiclePage {
    var role: Option<Role>
    var email: Option<string>
    var responsavel: string
    var dataVerificacao: string
    var veiculo: string
    var status: string
    var avaria: string
    var tipoAvaria: string
    var medidasCorretivas: string
    var tipoInspecao: string
    var itens: seq<string>
    var observacao: string

    /** The ten input variables as one entry. */
    function Current(): Entry
      reads this
    {
      Entry(responsavel, dataVerificacao, veiculo, status, avaria, tipoAvaria,
            medidasCorretivas, tipoInspecao, itens, observacao)
    }

    constructor ()
      ensures role == None && email == None
      ensures Current() == Entry("", "", "", "", "nao", "", "", "", [], "")
    {
      role, email := None, None;
      responsavel, dataVerificacao, veiculo, status := "", "", "", "";
      avaria, tipoAvaria, medidasCorretivas, tipoInspecao := "nao", "", "", "";
      itens, observacao := [], "";
    }

    /** The mount effect: the access guard; an admitted user's role and email are kept. */
    method Mount(storage: Storage, fullPath: string) returns (newStorage: Storage, nav: Nav)
      modifies this
      ensures Current() == old(Current())
      ensures CheckAccess(storage, fullPath).Redirected? ==>
                newStorage == CheckAccess(storage, fullPath).storage && nav == Replace("/login")
                && role == old(role) && email == old(email)
      ensures CheckAccess(storage, fullPath).Admitted? ==>
                newStorage == storage && nav == Stay
                && role == Some(CheckAccess(storage, fullPath).role)
                && email == Some(CheckAccess(storage, fullPath).email)
    {
      var access := CheckAccess(storage, fullPath);
      if access.Redirected? {
        newStorage, nav := access.storage, Replace("/login");
        return;
      }
      newStorage, nav := storage, Stay;
      role, email := Some(access.role), Some(access.email);
    }

    /** The `onChange` handler of one input. */
    method Set(input: Input, value: string)
      modifies this
      ensures Current() == Assign(old(Current()), input, value)
      ensures role == old(role) && email == old(email)
    {
      match input
      case Responsavel => responsavel := value;
      case DataVerificacao => dataVerificacao := value;
      case Veiculo => veiculo := value;
      case Status => status := value;
      case Avaria => avaria := value;
      case TipoAvaria => tipoAvaria := value;
      case MedidasCorretivas => medidasCorretivas := value;
      case TipoInspecao => tipoInspecao := value;
      case Observacao => observacao := value;
    }

    /** `toggleItem`. */
    method ToggleItem(item: string)
      modifies this
      ensures Current() == old(Current()).(itens := Checklist.Toggle(old(itens), item))
      ensures role == old(role) && email == old(email)
    {
      itens := Checklist.Toggle(itens, item);
    }

    /** `handleSubmit`: with a required field empty, an alert and no insert; otherwise
        the row is inserted (`insertError` is the backend's answer); success navigates to
        the container list. No state changes on any path. */
    method HandleSubmit(insertError: Option<string>) returns (sent: Option<Row>, notice: Notice, nav: Nav)
      ensures MissingRequired(Current()) ==>
                sent == None && notice == Alert("Preencha os campos obrigatórios!") && nav == Stay
      ensures !MissingRequired(Current()) ==> sent == Some(ToRow(Current(), email, role))
      ensures !MissingRequired(Current()) && insertError.Some? ==>
                notice == Alert("Erro ao enviar: " + insertError.value) && nav == Stay
      ensures !MissingRequired(Current()) && insertError.None? ==>
                notice == Alert("Formulário enviado com sucesso!") && nav == Push("/containers")
    {
      if MissingRequired(Current()) {
        return None, Alert("Preencha os campos obrigatórios!"), Stay;
      }
      sent := Some(ToRow(Current(), email, role));
      if insertError.Some? {
        notice, nav := Alert("Erro ao enviar: " + insertError.value), Stay;
      } else {
        notice, nav := Alert("Formulário enviado com sucesso!"), Push("/containers");
      }
    }
  }
}
