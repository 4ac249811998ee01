/**
 * The input checks the operations run before any request, as rule tables,
 * and the whitelists that restrict a request body to the fields the API
 * accepts. A table is evaluated in order; every rule that fails contributes
 * its message, so the messages come out in the order the checks are written.
 */
module Rules {
  import opened PhpValues

  /** One check of an input array. */
  datatype Rule =
    /** `!isset($d[f]) || empty($d[f])` */
    | Required(field: string, message: string)
    /** `isset($d[f]) && empty($d[f])`: the field may be left out, not left blank */
    | NotBlank(field: string, message: string)
    /** `!isset || empty || !in_array($d[f], words)` */
    | OneOf(field: string, words: seq<string>, message: string)
    /** `isset && (empty || !in_array($d[f], words))` */
    | NotBlankOneOf(field: string, words: seq<string>, message: string)
    /** `!isset($d[f]) || ($d[f] !== false && $d[f] !== true)` */
    | Boolean(field: string, message: string)
    /** both fields missing */
    | EitherRequired(field: string, other: string, message: string)
    /** `isset($d[f]) || empty($d[f])` */
    | SetOrEmpty(field: string, message: string)
    /** a required sub-array: its own message when missing, otherwise its rules, applied inside it */
    | Section(field: string, message: string, rules: seq<Rule>)
    /** rules applied inside `$d[f]`, with no message of their own */
    | Inside(field: string, rules: seq<Rule>)
    /** rules applied only when `isset($d[f])` */
    | IfPresent(field: string, rules: seq<Rule>)

  /** The rules that test one field and yield at most one message. */
  predicate Simple(r: Rule)
  {
    !(r.Section? || r.Inside? || r.IfPresent?)
  }

  /** Whether a simple rule fails on `data`. */
  predicate Fails(data: seq<Entry>, r: Rule)
    requires Simple(r)
    ensures r.Required? ==> (Fails(data, r) <==> IsEmpty(At(data, r.field)))
    ensures r.NotBlank? && Fails(data, r) ==> Entry(StrKey(r.field), At(data, r.field)) in data
    ensures r.SetOrEmpty? ==> Fails(data, r)
  {
    var v := At(data, r.field);
    match r
    case Required(_, _) => Missing(v)
    case NotBlank(_, _) => Blank(v)
    case OneOf(_, words, _) => Missing(v) || !LooseIn(v, words)
    case NotBlankOneOf(_, words, _) => IsSet(v) && (IsEmpty(v) || !LooseIn(v, words))
    case Boolean(_, _) => !IsSet(v) || (v != Bool(false) && v != Bool(true))
    case EitherRequired(_, other, _) => Missing(v) && Missing(At(data, other))
    case SetOrEmpty(_, _) => IsSet(v) || IsEmpty(v)
  }

  /** The entries of a sub-array; anything that is not an array has no entries to read. */
  function Entries(v: Value): (es: seq<Entry>)
    ensures forall k :: At(es, k) == Field(v, k)
  {
    if v.Arr? then v.entries else []
  }

  /** The messages of one rule. */
  function Check(data: seq<Entry>, r: Rule): (errs: seq<string>)
    ensures Simple(r) ==> errs == (if Fails(data, r) then [r.message] else [])
    decreases r, 1
  {
    if Simple(r) then (if Fails(data, r) then [r.message] else [])
    else
      match r
      case Section(f, message, rules) =>
        if Missing(At(data, f)) then [message] else CheckAll(Entries(At(data, f)), rules)
      case Inside(f, rules) => CheckAll(Entries(At(data, f)), rules)
      case IfPresent(f, rules) => if IsSet(At(data, f)) then CheckAll(data, rules) else []
  }

  /** The messages of a table of rules, in table order. */
  function CheckAll(data: seq<Entry>, rules: seq<Rule>): (errs: seq<string>)
    ensures |rules| == 0 ==> errs == []
    ensures |rules| == 1 ==> errs == Check(data, rules[0])
    decreases rules, 0
  {
    if |rules| == 0 then [] else Check(data, rules[0]) + CheckAll(data, rules[1..])
  }

  /** Tables concatenate: the checks of `r1` report before those of `r2`. */
  lemma {:induction false} CheckAllAppend(data: seq<Entry>, r1: seq<Rule>, r2: seq<Rule>)
    ensures CheckAll(data, r1 + r2) == CheckAll(data, r1) + CheckAll(data, r2)
    decreases |r1|
  {
    if |r1| == 0 {
      assert r1 + r2 == r2;
    } else {
      CheckAllAppend(data, r1[1..], r2);
      assert (r1 + r2)[0] == r1[0];
      assert (r1 + r2)[1..] == r1[1..] + r2;
    }
  }

  /**
   * For a table of simple rules: every failing rule reports its message,
   * every message comes from a failing rule, and the table passes exactly
   * when no rule fails.
   */
  lemma {:induction false} SimpleTable(data: seq<Entry>, rules: seq<Rule>)
    requires forall i :: 0 <= i < |rules| ==> Simple(rules[i])
    ensures forall i :: 0 <= i < |rules| && Fails(data, rules[i]) ==> rules[i].message in CheckAll(data, rules)
    ensures forall m :: m in CheckAll(data, rules) ==>
      exists i :: 0 <= i < |rules| && Fails(data, rules[i]) && rules[i].message == m
    ensures CheckAll(data, rules) == [] <==> forall i :: 0 <= i < |rules| ==> !Fails(data, rules[i])
    ensures |CheckAll(data, rules)| <= |rules|
    decreases |rules|
  {
    if |rules| > 0 {
      var tail := rules[1..];
      SimpleTable(data, tail);
      var errs := CheckAll(data, rules);
      assert errs == Check(data, rules[0]) + CheckAll(data, tail);
      forall i | 0 <= i < |rules| && Fails(data, rules[i])
        ensures rules[i].message in errs
      {
        if i > 0 {
          assert rules[i] == tail[i - 1];
        }
      }
      forall m | m in errs
        ensures exists i :: 0 <= i < |rules| && Fails(data, rules[i]) && rules[i].message == m
      {
        if m !in Check(data, rules[0]) {
          assert m in CheckAll(data, tail);
          var j :| 0 <= j < |tail| && Fails(data, tail[j]) && tail[j].message == m;
          assert rules[j + 1] == tail[j];
        }
      }
      if errs == [] {
        forall i | 0 <= i < |rules| ensures !Fails(data, rules[i]) {
          if i > 0 {
            assert rules[i] == tail[i - 1];
          }
        }
      }
    }
  }

  /** `isset(x) || empty(x)` holds of every value: the rule always fails. */
  lemma SetOrEmptyAlwaysFails(data: seq<Entry>, f: string, m: string)
    ensures Check(data, SetOrEmpty(f, m)) == [m]
  {
  }

  // ------------------------------------------------------------- messages

  function FieldRequired(f: string): string
  {
    "O campo " + f + " é obrigatório"
  }

  function FieldRequiredIn(f: string, container: string, suffix: string): string
  {
    "O campo " + f + " dentro de " + container + " é obrigatório" + suffix
  }

  const InstallmentSuffix := " para gera uma cobranca parcelada paga com cartão de crédito"

  const BillingTypes := ["BOLETO", "CREDIT_CARD", "PIX", "UNDEFINED"]
  const BillingTypeMessage := "O campo billingType é obrigatório e aceita apenas os valores BOLETO, CREDIT_CARD, PIX e UNDEFINED"
  const Cycles := ["WEEKLY", "BIWEEKLY", "MONTHLY", "QUARTERLY", "SEMIANNUALLY", "YEARLY"]
  const CycleMessage := "O campo cycle é obrigatório e aceita apenas os valores WEEKLY, BIWEEKLY, MONTHLY, QUARTERLY, SEMIANNUALLY e YEARLY"
  const AccountTypes := ["CONTA_CORRENTE", "CONTA_POUPANCA"]
  const AccountTypeMessage := "O campo bankAccountType dentro de bankAccount é obrigatório e aceita apenas os valores CONTA_CORRENTE e CONTA_POUPANCA"

  // --------------------------------------------------------- shared tables

  function CardFields(): seq<string>
  {
    ["holderName", "number", "expiryMonth", "expiryYear", "ccv"]
  }

  function HolderFields(): seq<string>
  {
    ["name", "email", "cpfCnpj", "postalCode", "addressNumber", "phone"]
  }

  /** One `Required` rule per field, with the "inside container" message. */
  function RequiredInside(fields: seq<string>, container: string, suffix: string): (rules: seq<Rule>)
    ensures |rules| == |fields|
    ensures forall i :: 0 <= i < |rules| ==>
      rules[i] == Required(fields[i], FieldRequiredIn(fields[i], container, suffix))
  {
    if |fields| == 0 then []
    else [Required(fields[0], FieldRequiredIn(fields[0], container, suffix))] + RequiredInside(fields[1..], container, suffix)
  }

  /** The credit card block: the card itself and its five fields. */
  function CardSection(suffix: string): Rule
  {
    Section("creditCard", FieldRequired("creditCard") + suffix, RequiredInside(CardFields(), "creditCard", suffix))
  }

  /** The card holder block: the holder data and its six fields. */
  function HolderSection(suffix: string): Rule
  {
    Section("creditCardHolderInfo", FieldRequired("creditCardHolderInfo") + suffix,
      RequiredInside(HolderFields(), "creditCardHolderInfo", suffix))
  }

  /** The checks shared by every credit-card payment: card, holder and the buyer's IP address. */
  function CardRules(suffix: string): seq<Rule>
  {
    [CardSection(suffix), HolderSection(suffix), Required("remoteIp", FieldRequired("remoteIp") + suffix)]
  }

  /**
   * The card block passes exactly when the card is present and non-empty and
   * each of its five fields is, and otherwise names what is missing.
   */
  lemma CardSectionChecks(data: seq<Entry>, suffix: string)
    ensures Missing(At(data, "creditCard")) ==>
      Check(data, CardSection(suffix)) == [FieldRequired("creditCard") + suffix]
    ensures !Missing(At(data, "creditCard")) ==>
      var card := At(data, "creditCard");
      (forall i :: 0 <= i < |CardFields()| && Missing(Field(card, CardFields()[i])) ==>
         FieldRequiredIn(CardFields()[i], "creditCard", suffix) in Check(data, CardSection(suffix))) &&
      (Check(data, CardSection(suffix)) == [] <==>
         forall i :: 0 <= i < |CardFields()| ==> !Missing(Field(card, CardFields()[i])))
    ensures !Missing(At(data, "creditCard")) ==>
      var card := At(data, "creditCard");
      forall m :: m in Check(data, CardSection(suffix)) ==>
        exists i :: 0 <= i < |CardFields()| && Missing(Field(card, CardFields()[i])) &&
          m == FieldRequiredIn(CardFields()[i], "creditCard", suffix)
  {
    var card := At(data, "creditCard");
    if !Missing(card) {
      var rules := RequiredInside(CardFields(), "creditCard", suffix);
      var inner := Entries(card);
      SimpleTable(inner, rules);
      assert Check(data, CardSection(suffix)) == CheckAll(inner, rules);
      forall i | 0 <= i < |CardFields()|
        ensures Fails(inner, rules[i]) <==> Missing(Field(card, CardFields()[i]))
      {
      }
    }
  }

  // ------------------------------------------------- per-operation tables

  const EmpresaNameMessage := "O Nome da conta é obrigatório"
  const EmpresaEmailMessage := "O email da conta é obrigatório"
  const EmpresaCpfCnpjMessage := "O CPF/CNPJ do proprietário da conta é obrigatório"
  const EmpresaPhoneMessage := "O telefone fixo do proprietário da conta é obrigatório"
  const EmpresaMobilePhoneMessage := "O telefone celular do proprietário da conta é obrigatório"
  const EmpresaAddressMessage := "O logradouro do endereço do proprietário da conta é obrigatório"
  const EmpresaAddressNumberMessage := "O número do endereço do proprietário da conta é obrigatório"
  const EmpresaProvinceMessage := "O bairro do endereço do proprietário da conta é obrigatório"
  const EmpresaPostalCodeMessage := "O CEP do endereço do proprietário da conta é obrigatório"

  function EmpresaRules(): seq<Rule>
  {
    [ NotBlank("name", EmpresaNameMessage),
      NotBlank("email", EmpresaEmailMessage),
      NotBlank("cpfCnpj", EmpresaCpfCnpjMessage),
      NotBlank("phone", EmpresaPhoneMessage),
      NotBlank("mobilePhone", EmpresaMobilePhoneMessage),
      NotBlank("address", EmpresaAddressMessage),
      NotBlank("addressNumber", EmpresaAddressNumberMessage),
      NotBlank("province", EmpresaProvinceMessage),
      NotBlank("postalCode", EmpresaPostalCodeMessage) ]
  }

  const DocumentoDocumentTypeMessage := "O tipo do documento é obrigatório"
  const DocumentoDocumentGroupTypeMessage := "O grupo do documento é obrigatório"
  const DocumentoDocumentFileMessage := "O conteúdo do documento é obrigatório"

  function DocumentoRules(): seq<Rule>
  {
    [ NotBlank("documentType", DocumentoDocumentTypeMessage),
      NotBlank("documentGroupType", DocumentoDocumentGroupTypeMessage),
      NotBlank("documentFile", DocumentoDocumentFileMessage) ]
  }

  const ClienteNameMessage := "O Nome do cliente é obrigatório"
  const ClienteCpfCnpjMessage := "O CPF/CNPJ do cliente é obrigatório"

  function ClienteRules(): seq<Rule>
  {
    [Required("name", ClienteNameMessage), Required("cpfCnpj", ClienteCpfCnpjMessage)]
  }

  function AtualizaClienteRules(): seq<Rule>
  {
    [NotBlank("name", ClienteNameMessage), NotBlank("cpfCnpj", ClienteCpfCnpjMessage)]
  }

  function CobrancaRules(): seq<Rule>
  {
    [ Required("customer", FieldRequired("customer")),
      OneOf("billingType", BillingTypes, BillingTypeMessage),
      Required("value", FieldRequired("value")),
      Required("dueDate", FieldRequired("dueDate")) ]
  }

  function CartaoRules(): seq<Rule>
  {
    [ Required("customer", FieldRequired("customer")),
      Required("value", FieldRequired("value")),
      Required("dueDate", FieldRequired("dueDate")) ] + CardRules("")
  }

  function AtualizaCobrancaRules(): seq<Rule>
  {
    [ NotBlank("customer", FieldRequired("customer")),
      NotBlankOneOf("billingType", BillingTypes, BillingTypeMessage),
      NotBlank("value", FieldRequired("value")),
      NotBlank("dueDate", FieldRequired("dueDate")) ]
  }

  const SolicitanteMessage := "Não informado solicitante da antecipação"
  const AntecipacaoCobrancaMessage := "Não informado ID da cobrança para antecipação"

  function AntecipacaoRules(): seq<Rule>
  {
    [ Required("solicitante", SolicitanteMessage),
      Required("cobranca", AntecipacaoCobrancaMessage) ]
  }

  const NotifyCustomerMessage := "O campo notifyCustomer é obrigatório e é do tipo booleano"

  function ConfirmaRecebimentoRules(): seq<Rule>
  {
    [ Required("paymentDate", FieldRequired("paymentDate")),
      Required("value", FieldRequired("value")),
      Boolean("notifyCustomer", NotifyCustomerMessage) ]
  }

  const InstallmentValueMessage :=
    "O campo installmentValue é obrigatório (Caso não queira informar o valor da parcela, é obrigatório informar o valor total da cobrança pelo campo totalValue)"

  function ParceladaRules(): seq<Rule>
  {
    [ Required("customer", FieldRequired("customer")),
      OneOf("billingType", BillingTypes, BillingTypeMessage),
      Required("installmentCount", FieldRequired("installmentCount")),
      EitherRequired("installmentValue", "totalValue", InstallmentValueMessage),
      Required("dueDate", FieldRequired("dueDate")),
      IfPresent("creditCard", CardRules(InstallmentSuffix)) ]
  }

  function AssinaturaHead(): seq<Rule>
  {
    [ Required("customer", FieldRequired("customer")),
      OneOf("billingType", BillingTypes, BillingTypeMessage),
      Required("value", FieldRequired("value")),
      Required("nextDueDate", FieldRequired("nextDueDate")),
      OneOf("cycle", Cycles, CycleMessage) ]
  }

  function AssinaturaRules(): seq<Rule>
  {
    AssinaturaHead() + [IfPresent("creditCard", CardRules(InstallmentSuffix))]
  }

  /**
   * As for a new subscription, except that the holder test reads
   * `isset(...) || empty(...)`, which every value satisfies: the holder
   * message is reported whenever a card is given, and the holder's own
   * fields are never looked at.
   */
  function AtualizaAssinaturaRules(): seq<Rule>
  {
    AssinaturaHead() + [IfPresent("creditCard", AtualizaCardRules())]
  }

  /** The card checks of a subscription update, with the holder test as written. */
  function AtualizaCardRules(): seq<Rule>
  {
    [ CardSection(InstallmentSuffix),
      SetOrEmpty("creditCardHolderInfo", FieldRequired("creditCardHolderInfo") + InstallmentSuffix),
      Required("remoteIp", FieldRequired("remoteIp") + InstallmentSuffix) ]
  }

  function GeraPagamentoRules(): seq<Rule>
  {
    [Required("identificationField", FieldRequired("identificationField"))]
  }

  const SimulaPagamentoMessage := "É necessário informar o campo identificationField ou o campo barCode para realizar a simulação"

  function SimulaPagamentoRules(): seq<Rule>
  {
    [EitherRequired("identificationField", "barCode", SimulaPagamentoMessage)]
  }

  const BankCodeMessage := "O campo code dentro de bank dentro de bankAccount é obrigatório"

  function TransfereRules(): seq<Rule>
  {
    [ Required("value", FieldRequired("value")),
      Section("bankAccount", FieldRequired("bankAccount"),
        [ Inside("bank", [Required("code", BankCodeMessage)]) ]
        + RequiredInside(["ownerName", "cpfCnpj", "agency", "account", "accountDigit"], "bankAccount", "")
        + [ OneOf("bankAccountType", AccountTypes, AccountTypeMessage) ]) ]
  }

  // ------------------------------------------------------------ whitelists

  const EmpresaFields := ["name", "email", "loginEmail", "cpfCnpj", "companyType", "phone", "mobilePhone",
                          "address", "addressNumber", "complement", "province", "postalCode"]
  const DocumentoFields := ["documentType", "documentGroupType", "documentFile"]
  const ClienteFields := ["name", "email", "cpfCnpj", "phone", "mobilePhone", "address", "addressNumber",
                          "complement", "province", "postalCode", "externalReference", "notificationDisabled",
                          "additionalEmails", "municipalInscription", "stateInscription", "observations", "groupName"]
  const CobrancaFields := ["customer", "billingType", "value", "dueDate", "description", "externalReference",
                           "discount", "interest", "fine", "postalService"]
  const CartaoFields := ["customer", "billingType", "value", "installmentCount", "installmentValue", "dueDate",
                         "description", "externalReference", "discount", "interest", "fine", "postalService",
                         "creditCard", "creditCardHolderInfo", "remoteIp"]
  const ConfirmaRecebimentoFields := ["paymentDate", "notifyCustomer", "value"]
  const ParceladaFields := ["customer", "billingType", "totalValue", "dueDate", "description", "externalReference",
                            "discount", "interest", "fine", "postalService", "installmentCount", "installmentValue",
                            "creditCard", "creditCardHolderInfo", "remoteIp"]
  const AssinaturaFields := ["customer", "billingType", "value", "nextDueDate", "description", "externalReference",
                             "discount", "interest", "fine", "postalService", "cycle", "creditCard",
                             "creditCardHolderInfo", "remoteIp"]
  const AtualizaAssinaturaFields := AssinaturaFields + ["updatePendingPayments"]
  const GeraPagamentoFields := ["identificationField", "scheduleDate", "description", "discount", "dueDate", "value"]
  /** The second name is misspelled in the client, so a `barCode` field is never forwarded. */
  const SimulaPagamentoFields := ["identificationField", "barCado"]
  const TransfereFields := ["value", "bankAccount"]
}
