/**
 * The messages the spa sends by WhatsApp and email: the number a WhatsApp
 * link dials, the quick messages of the staff screens, the notices of a
 * confirmed, cancelled or rescheduled visit, the password reminder and the
 * payment instructions with the bank details.
 */
module Notification {
  import opened Wrappers
  import opened Text
  import opened Domain
  import AppointmentManager

  // ---------------------------------------------------------------------------
  // Phone numbers

  lemma DigitsMembershipAll(s: string)
    ensures forall c :: c in Digits(s) <==> c in s && IsDigit(c)
  {
    forall c ensures c in Digits(s) <==> c in s && IsDigit(c) {
      DigitsMembership(s, c);
    }
  }

  /** `cleanPhone`: the digits typed, in order; nothing else survives. */
  function CleanPhone(phone: string): (r: string)
    ensures AllDigits(r) && |r| <= |phone|
    ensures forall c :: c in r <==> c in phone && IsDigit(c)
  {
    DigitsMembershipAll(phone);
    Digits(phone)
  }

  /** Separators are dropped in place: cleaning a joined number cleans each part. */
  lemma CleanPhoneAppend(a: string, b: string)
    ensures CleanPhone(a + b) == CleanPhone(a) + CleanPhone(b)
  {
    DigitsAppend(a, b);
  }

  /**
   * The number a WhatsApp link dials: a ten-digit national number gets the
   * Mexican mobile prefix 521, any other count of digits is dialled as typed.
   */
  function WhatsAppNumber(phone: string): (n: string)
    ensures AllDigits(n)
    ensures |CleanPhone(phone)| == 10 <==> |n| == 13 && n[..3] == "521" && n[3..] == CleanPhone(phone)
    ensures |CleanPhone(phone)| != 10 ==> n == CleanPhone(phone)
  {
    var clean := CleanPhone(phone);
    if |clean| == 10 then "521" + clean else clean
  }

  /** A number that already went through the prefixing is dialled unchanged: the prefix is never added twice. */
  lemma {:induction false} WhatsAppNumberIdempotent(phone: string)
    ensures WhatsAppNumber(WhatsAppNumber(phone)) == WhatsAppNumber(phone)
  {
    var n := WhatsAppNumber(phone);
    DigitsOfDigitString(n);
    assert CleanPhone(n) == n;
  }

  /** The same phone typed with or without separators dials the same number. */
  lemma WhatsAppNumberIgnoresFormatting(a: string, b: string)
    requires CleanPhone(a) == CleanPhone(b)
    ensures WhatsAppNumber(a) == WhatsAppNumber(b)
  {
  }

  // ---------------------------------------------------------------------------
  // Quick messages

  datatype QuickKind = Reminder | Promo | General | Staff | OtherQuick

  /** `Hola` and the first word of the name. */
  function Greeting(name: string): string {
    "Hola " + FirstWord(name)
  }

  /** The fixed text each kind adds after the greeting and its comma. */
  function QuickBody(kind: QuickKind): string {
    match kind
    case Reminder => "te saludamos de Maine SPA para recordarte tu próxima visita. ¿Podrías confirmarnos tu asistencia?"
    case Promo => "¡tenemos una promoción especial pensada para ti! \U{1F381} ¿Te gustaría conocer los detalles?"
    case General => "esperamos que estés teniendo un excelente día. Estamos a tus órdenes para cualquier consulta."
    case Staff => "aviso importante de la administración. Por favor confirma de recibido."
    case OtherQuick => "gracias por contactar a Maine SPA."
  }

  /** `getQuickMessage`: the greeting with the first name, a comma, then the kind's fixed text. */
  function QuickMessage(kind: QuickKind, name: string): (r: string)
    ensures Greeting(name) + ", " <= r
    ensures |r| == |Greeting(name)| + 2 + |QuickBody(kind)|
    ensures r[|Greeting(name)| + 2..] == QuickBody(kind)
  {
    Greeting(name) + ", " + QuickBody(kind)
  }

  /** Only the first word of a full name is used: the surname never appears in the greeting. */
  lemma GreetingUsesFirstName(first: string, rest: string)
    requires ' ' !in first
    ensures Greeting(first + " " + rest) == "Hola " + first
  {
    var s := first + " " + rest;
    assert s == first + (" " + rest);
    IndexOfConcat(first, " " + rest, ' ');
    assert (" " + rest)[0] == ' ';
    assert IndexOf(s, ' ') == |first|;
    assert s[..|first|] == first;
  }

  /** A quick message to `first rest` greets `first` only. */
  lemma QuickMessageToFullName(kind: QuickKind, first: string, rest: string)
    requires ' ' !in first
    ensures QuickMessage(kind, first + " " + rest) == "Hola " + first + ", " + QuickBody(kind)
  {
    GreetingUsesFirstName(first, rest);
  }

  // ---------------------------------------------------------------------------
  // Texts assembled from pieces

  /** The pieces of a message, written one after the other. */
  function Concat(parts: seq<string>): string {
    if parts == [] then "" else parts[0] + Concat(parts[1..])
  }

  /** Every piece of a message can be found in it. */
  lemma {:induction false} ConcatMentions(parts: seq<string>, i: int)
    requires 0 <= i < |parts|
    ensures Occurs(Concat(parts), parts[i])
  {
    var whole := Concat(parts);
    assert whole == parts[0] + Concat(parts[1..]);
    if i == 0 {
      assert whole[..|parts[0]|] == parts[0];
      assert OccursAt(whole, parts[0], 0);
    } else {
      assert parts[1..][i - 1] == parts[i];
      ConcatMentions(parts[1..], i - 1);
      var k :| OccursAt(Concat(parts[1..]), parts[i], k);
      OccursAfter(parts[0], Concat(parts[1..]), parts[i], k);
    }
  }

  /** A message opens with its first piece. */
  lemma ConcatStartsWithFirst(parts: seq<string>)
    requires |parts| > 0
    ensures parts[0] <= Concat(parts)
  {
    assert Concat(parts) == parts[0] + Concat(parts[1..]);
  }

  // ---------------------------------------------------------------------------
  // Status notices

  datatype StatusKind = ConfirmedNotice | CancelledNotice | RescheduledNotice | OtherNotice

  /** A WhatsApp text, and the subject and body of an email. */
  datatype Messages = Messages(whatsapp: string, emailSubject: string, emailBody: string)

  const NoMessages := Messages("", "", "")

  const Signature := "\n\nAtentamente,\nMaine SPA Center"

  const ConfirmedWhatsAppIntro := " tu cita en Maine SPA Center está *CONFIRMADA*. \n\U{1F5D3} Fecha: "
  const ConfirmedWhatsAppTime := "\n\U{23F0} Hora: "
  const ConfirmedWhatsAppService := "\n\U{1F486}\U{200D}\U{2640}\U{FE0F} Tratamiento: "
  const ConfirmedWhatsAppOutro := "\n\U{1F4CD} Ubicación: Calle Ardilla #93, Col. Benito Juarez.\n¡Te esperamos!"
  const ConfirmedSubject := "Confirmación de Cita - Maine SPA Center"
  const ConfirmedEmailIntro := "\n\nTu cita ha sido confirmada exitosamente.\n\nDetalles:\nTratamiento: "
  const EmailDate := "\nFecha: "
  const EmailTime := "\nHora: "
  const ConfirmedEmailOutro := "\n\nRecuerda llegar 10 minutos antes."

  const CancelledWhatsAppIntro := " te informamos que tu cita para el "
  const CancelledWhatsAppOutro := " ha sido *CANCELADA*. Si deseas reagendar, por favor contáctanos."
  const CancelledSubject := "Cancelación de Cita - Maine SPA Center"
  const CancelledEmailIntro := "\n\nTe informamos que tu cita programada para el "
  const CancelledEmailTime := " a las "
  const CancelledEmailOutro := " ha sido cancelada.\n\nSi esto es un error o deseas reagendar, por favor responde a este correo o contáctanos por WhatsApp."

  const RescheduledWhatsAppIntro := " tu cita ha sido *REAGENDADA* exitosamente.\n\U{1F5D3} Nueva Fecha: "
  const RescheduledWhatsAppTime := "\n\U{23F0} Nueva Hora: "
  const RescheduledWhatsAppOutro := "\n¡Gracias por tu preferencia!"
  const RescheduledSubject := "Cambio de Horario de Cita - Maine SPA Center"
  const RescheduledEmailIntro := "\n\nTu cita ha sido actualizada con el nuevo horario:\n\nFecha: "
  const RescheduledEmailOutro := "\n\nSi tienes alguna duda, contáctanos."

  /** The pieces of each notice: WhatsApp text, subject, email body. */
  function NoticeParts(kind: StatusKind, greeting: string, apt: Appointment): (seq<string>, string, seq<string>) {
    match kind
    case ConfirmedNotice =>
      ([greeting, ConfirmedWhatsAppIntro, apt.date, ConfirmedWhatsAppTime, apt.time,
        ConfirmedWhatsAppService, apt.service, ConfirmedWhatsAppOutro],
       ConfirmedSubject,
       [greeting, ConfirmedEmailIntro, apt.service, EmailDate, apt.date, EmailTime, apt.time,
        ConfirmedEmailOutro, Signature])
    case CancelledNotice =>
      ([greeting, CancelledWhatsAppIntro, apt.date, CancelledWhatsAppOutro],
       CancelledSubject,
       [greeting, CancelledEmailIntro, apt.date, CancelledEmailTime, apt.time, CancelledEmailOutro, Signature])
    case RescheduledNotice =>
      ([greeting, RescheduledWhatsAppIntro, apt.date, RescheduledWhatsAppTime, apt.time, RescheduledWhatsAppOutro],
       RescheduledSubject,
       [greeting, RescheduledEmailIntro, apt.date, EmailTime, apt.time, RescheduledEmailOutro, Signature])
    case OtherNotice => ([], "", [])
  }

  /**
   * `getStatusMessage`: each known notice greets the patient by first name
   * and carries its own subject; an unknown kind yields three empty texts.
   */
  function StatusMessage(kind: StatusKind, apt: Appointment, patient: Patient): (r: Messages)
    ensures kind == OtherNotice <==> r == NoMessages
    ensures kind != OtherNotice ==>
      Greeting(patient.fullName) + "," <= r.whatsapp && Greeting(patient.fullName) + "," <= r.emailBody
      && r.emailSubject != ""
  {
    var greeting := Greeting(patient.fullName) + ",";
    var parts := NoticeParts(kind, greeting, apt);
    if kind == OtherNotice then NoMessages
    else
      ConcatStartsWithFirst(parts.0);
      ConcatStartsWithFirst(parts.2);
      assert |greeting| > 0;
      Messages(Concat(parts.0), parts.1, Concat(parts.2))
  }

  /**
   * Every notice tells the date of the visit in both channels, and the email
   * its time as well; the confirmation and the rescheduling also give the
   * time on WhatsApp.
   */
  lemma {:induction false} NoticesMentionTheVisit(kind: StatusKind, apt: Appointment, patient: Patient)
    requires kind != OtherNotice
    ensures var m := StatusMessage(kind, apt, patient);
      Occurs(m.whatsapp, apt.date) && Occurs(m.emailBody, apt.date) && Occurs(m.emailBody, apt.time)
      && (kind != CancelledNotice ==> Occurs(m.whatsapp, apt.time))
  {
    var parts := NoticeParts(kind, Greeting(patient.fullName) + ",", apt);
    match kind
    case ConfirmedNotice =>
      ConcatMentions(parts.0, 2);
      ConcatMentions(parts.0, 4);
      ConcatMentions(parts.2, 4);
      ConcatMentions(parts.2, 6);
    case CancelledNotice =>
      ConcatMentions(parts.0, 2);
      ConcatMentions(parts.2, 2);
      ConcatMentions(parts.2, 4);
    case RescheduledNotice =>
      ConcatMentions(parts.0, 2);
      ConcatMentions(parts.0, 4);
      ConcatMentions(parts.2, 2);
      ConcatMentions(parts.2, 4);
  }

  // ---------------------------------------------------------------------------
  // Password reminder

  /** `user.password || 'No asignada'`: a missing or empty password is shown as not assigned. */
  function ShownPassword(password: Option<string>): (s: string)
    ensures s != ""
    ensures Truthy(password) ==> s == password.value
  {
    if Truthy(password) then password.value else "No asignada"
  }

  const RecoveryWhatsAppIntro := " recibimos una solicitud para recordar tu contraseña de acceso a Maine SPA Center.\n\U{1F511} Tu contraseña es: *"
  const RecoveryWhatsAppOutro := "*\nPor favor, bórrala de este chat una vez la hayas memorizado por seguridad."
  const RecoverySubject := "Recuperación de Contraseña - Maine SPA Center"
  const RecoveryEmailIntro := "\n\nHemos recibido una solicitud para recuperar tu acceso al sistema.\n\nTu contraseña actual es: "
  const RecoveryEmailOutro := "\n\nTe recomendamos cambiarla periódicamente.\n\nSi no solicitaste esto, por favor contáctanos inmediatamente."

  /** `getPasswordRecoveryMessage` for a user with this full name and stored password. */
  function RecoveryMessage(fullName: string, password: Option<string>): (r: Messages)
    ensures Greeting(fullName) + "," <= r.whatsapp && Greeting(fullName) + "," <= r.emailBody
    ensures r.emailSubject == RecoverySubject
  {
    var greeting := Greeting(fullName) + ",";
    var shown := ShownPassword(password);
    ConcatStartsWithFirst([greeting, RecoveryWhatsAppIntro, shown, RecoveryWhatsAppOutro]);
    ConcatStartsWithFirst([greeting, RecoveryEmailIntro, shown, RecoveryEmailOutro, Signature]);
    Messages(
      Concat([greeting, RecoveryWhatsAppIntro, shown, RecoveryWhatsAppOutro]),
      RecoverySubject,
      Concat([greeting, RecoveryEmailIntro, shown, RecoveryEmailOutro, Signature]))
  }

  /** Both texts tell the user their stored password, or that none is assigned. */
  lemma {:induction false} RecoveryTellsPassword(fullName: string, password: Option<string>)
    ensures var m := RecoveryMessage(fullName, password);
      Occurs(m.whatsapp, ShownPassword(password)) && Occurs(m.emailBody, ShownPassword(password))
    ensures Truthy(password) ==> Occurs(RecoveryMessage(fullName, password).emailBody, password.value)
  {
    var greeting := Greeting(fullName) + ",";
    var shown := ShownPassword(password);
    ConcatMentions([greeting, RecoveryWhatsAppIntro, shown, RecoveryWhatsAppOutro], 2);
    ConcatMentions([greeting, RecoveryEmailIntro, shown, RecoveryEmailOutro, Signature], 2);
  }

  // ---------------------------------------------------------------------------
  // Payment instructions

  /** A piece of a payment text: plain text, an amount of money, or a discount percentage. */
  datatype Piece = Txt(text: string) | Money(amount: real) | Pct(percent: real)

  /** The payment texts; amounts stay numbers, rendered in Mexican pesos when sent. */
  datatype PaymentMessages = PaymentMessages(whatsapp: seq<Piece>, emailSubject: string, emailBody: seq<Piece>)

  /** The amounts of money a text states, in order. */
  function Amounts(ps: seq<Piece>): seq<real> {
    if ps == [] then []
    else (if ps[0].Money? then [ps[0].amount] else []) + Amounts(ps[1..])
  }

  /** The discount percentages a text states, in order. */
  function Percents(ps: seq<Piece>): seq<real> {
    if ps == [] then []
    else (if ps[0].Pct? then [ps[0].percent] else []) + Percents(ps[1..])
  }

  lemma {:induction false} AmountsAppend(a: seq<Piece>, b: seq<Piece>)
    ensures Amounts(a + b) == Amounts(a) + Amounts(b)
    ensures Percents(a + b) == Percents(a) + Percents(b)
  {
    if a != [] {
      assert (a + b)[1..] == a[1..] + b;
      AmountsAppend(a[1..], b);
    } else {
      assert a + b == b;
    }
  }

  /** A text piece states no figure. */
  lemma NoFigures(s: string)
    ensures Amounts([Txt(s)]) == [] && Percents([Txt(s)]) == []
  {
    assert [Txt(s)][1..] == [];
  }

  lemma AmountsCons(p: Piece, rest: seq<Piece>)
    ensures Amounts([p] + rest) == (if p.Money? then [p.amount] else []) + Amounts(rest)
    ensures Percents([p] + rest) == (if p.Pct? then [p.percent] else []) + Percents(rest)
  {
    assert ([p] + rest)[1..] == rest;
  }

  /** Text, one figure, text. */
  lemma {:induction false} OneFigure(a: string, p: Piece, b: string)
    requires !p.Txt?
    ensures Amounts([Txt(a), p, Txt(b)]) == (if p.Money? then [p.amount] else [])
    ensures Percents([Txt(a), p, Txt(b)]) == (if p.Pct? then [p.percent] else [])
  {
    NoFigures(b);
    AmountsCons(p, [Txt(b)]);
    assert [p] + [Txt(b)] == [p, Txt(b)];
    AmountsCons(Txt(a), [p, Txt(b)]);
    assert [Txt(a)] + [p, Txt(b)] == [Txt(a), p, Txt(b)];
  }

  const PaymentWhatsAppIntro := " aquí tienes los detalles de pago para tu cita.\n\n"
  const ServiceLabel := "\U{1F486}\U{200D}\U{2640}\U{FE0F} *Servicio:* "
  const TotalLabel := "\n\U{1F4B0} *Total:* "
  const DiscountIntro := " (Incluye "
  const DiscountOutro := "% de descuento)"
  const DepositIntro := "\n\U{26A0}\U{FE0F} *ANTICIPO REQUERIDO (25%)*:\nPara confirmar tu cita por ser primera vez, es necesario un anticipo de *"
  const RemainderIntro := "*.\n\U{1F6D1} *Importante:* Si el pago no se confirma al menos *1 hora antes de la cita*, esta será cancelada automáticamente.\nEl resto ("
  const RemainderOutro := ") se liquida el día de tu cita."
  const FullPaymentIntro := "\n\U{2705} *Pago Total*: Puedes liquidar el total de *"
  const FullPaymentOutro := "* ahora o pagar en sitio el día de tu cita."
  const PaymentWhatsAppOutro := "\n\nEnvíanos tu comprobante por aquí. ¡Gracias!"
  const PaymentSubject := "Información de Pago - Maine SPA Center"
  const PaymentEmailIntro := "\n\nGracias por elegir Maine SPA Center. Aquí están los detalles para tu pago:\n\nServicio: "
  const PaymentEmailTotal := "\nTotal a Pagar: "
  const EmailDiscountIntro := " (con "
  const EmailDiscountOutro := "% descuento)"
  const EmailDepositIntro := "ANTICIPO REQUERIDO (25%): "
  const EmailDepositOutro := "\nNota: Se requiere confirmación 1 hora antes de la cita para evitar cancelación."
  const EmailFullPayment := "Puedes pagar por transferencia o en sitio."

  const BankHeading := "\n\U{1F3E6} *Datos Bancarios*:\nBanco: "
  const EmailBankHeading := "\n\nDATOS BANCARIOS:\nBanco: "
  const AccountLabel := "\nCuenta: "
  const ClabeLabel := "\nCLABE: "
  const HolderLabel := "\nTitular: "
  const ReferenceLabel := "\n\n\U{1F4CC} *CONCEPTO DE PAGO*: Abono "
  const ReferenceNote := "\n(Usa este concepto exacto para referencia automática)"
  const EmailReferenceLabel := "\n\nCONCEPTO: Abono "
  const LineBreak := "\n"
  const BlankLine := "\n\n"

  /** The bank details and the client's code as the payment reference. */
  function BankDetails(b: BankingInfo, clientCode: string): (p: Piece)
    ensures p.Txt? && Occurs(p.text, clientCode) && Occurs(p.text, b.clabe)
  {
    var parts := [BankHeading, b.bankName, AccountLabel, b.accountNumber, ClabeLabel, b.clabe,
      HolderLabel, b.accountHolder, ReferenceLabel, clientCode, ReferenceNote];
    ConcatMentions(parts, 5);
    ConcatMentions(parts, 9);
    Txt(Concat(parts))
  }

  function EmailBankDetails(b: BankingInfo, clientCode: string): (p: Piece)
    ensures p.Txt? && Occurs(p.text, clientCode) && Occurs(p.text, b.clabe)
  {
    var parts := [EmailBankHeading, b.bankName, AccountLabel, b.accountNumber, ClabeLabel, b.clabe,
      HolderLabel, b.accountHolder, EmailReferenceLabel, clientCode, Signature];
    ConcatMentions(parts, 5);
    ConcatMentions(parts, 9);
    Txt(Concat(parts))
  }

  /** `discountPercent && discountPercent > 0` */
  predicate DiscountOnWhatsApp(discountPercent: Option<real>) {
    discountPercent.Some? && discountPercent.value > 0.0
  }

  /** `discountPercent ? … : ''`: any non-zero percentage, negative ones included. */
  predicate DiscountInEmail(discountPercent: Option<real>) {
    discountPercent.Some? && discountPercent.value != 0.0
  }

  /** The service and the total, with the discount when there is a positive one. */
  function PriceDetails(serviceName: string, total: real, discountPercent: Option<real>): (ps: seq<Piece>)
    ensures Amounts(ps) == [total]
    ensures Percents(ps) == if DiscountOnWhatsApp(discountPercent) then [discountPercent.value] else []
  {
    var head := [Txt(ServiceLabel + serviceName + TotalLabel), Money(total)];
    AmountsCons(Money(total), []);
    AmountsCons(Txt(ServiceLabel + serviceName + TotalLabel), [Money(total)]);
    assert [Money(total)] + [] == [Money(total)];
    assert [Txt(ServiceLabel + serviceName + TotalLabel)] + [Money(total)] == head;
    var disc: seq<Piece> := if DiscountOnWhatsApp(discountPercent) then [Txt(DiscountIntro), Pct(discountPercent.value), Txt(DiscountOutro)] else [];
    AmountsAppend(head, disc);
    OneFigure(DiscountIntro, Pct(discountPercent.GetOr(0.0)), DiscountOutro);
    head + disc
  }

  /** What to pay: a new client's deposit and the remainder, anyone else's full total. */
  function Instructions(total: real, deposit: real, isNewClient: bool): (ps: seq<Piece>)
    ensures Amounts(ps) == if isNewClient then [deposit, total - deposit] else [total]
    ensures Percents(ps) == []
  {
    if isNewClient then
      var first := [Txt(DepositIntro), Money(deposit), Txt(RemainderIntro)];
      var second := [Money(total - deposit), Txt(RemainderOutro)];
      OneFigure(DepositIntro, Money(deposit), RemainderIntro);
      NoFigures(RemainderOutro);
      AmountsCons(Money(total - deposit), [Txt(RemainderOutro)]);
      assert [Money(total - deposit)] + [Txt(RemainderOutro)] == second;
      AmountsAppend(first, second);
      first + second
    else
      OneFigure(FullPaymentIntro, Money(total), FullPaymentOutro);
      [Txt(FullPaymentIntro), Money(total), Txt(FullPaymentOutro)]
  }

  /** The email's total line, with any non-zero discount. */
  function EmailPrice(serviceName: string, total: real, discountPercent: Option<real>): (ps: seq<Piece>)
    ensures Amounts(ps) == [total]
    ensures Percents(ps) == if DiscountInEmail(discountPercent) then [discountPercent.value] else []
  {
    var head := [Txt(PaymentEmailIntro + serviceName + PaymentEmailTotal), Money(total)];
    AmountsCons(Money(total), []);
    AmountsCons(Txt(PaymentEmailIntro + serviceName + PaymentEmailTotal), [Money(total)]);
    assert [Money(total)] + [] == [Money(total)];
    assert [Txt(PaymentEmailIntro + serviceName + PaymentEmailTotal)] + [Money(total)] == head;
    var disc: seq<Piece> := if DiscountInEmail(discountPercent) then [Txt(EmailDiscountIntro), Pct(discountPercent.value), Txt(EmailDiscountOutro)] else [];
    AmountsAppend(head, disc);
    OneFigure(EmailDiscountIntro, Pct(discountPercent.GetOr(0.0)), EmailDiscountOutro);
    head + disc
  }

  /** The email's payment line: the deposit for a new client, the ways to pay for anyone else. */
  function EmailInstructions(deposit: real, isNewClient: bool): (ps: seq<Piece>)
    ensures Amounts(ps) == if isNewClient then [deposit] else []
    ensures Percents(ps) == []
  {
    if isNewClient then
      OneFigure(EmailDepositIntro, Money(deposit), EmailDepositOutro);
      [Txt(EmailDepositIntro), Money(deposit), Txt(EmailDepositOutro)]
    else
      NoFigures(EmailFullPayment);
      [Txt(EmailFullPayment)]
  }

  /** The bank details and the closing line of the WhatsApp text. */
  function WhatsAppClosing(b: BankingInfo, clientCode: string): (ps: seq<Piece>)
    ensures Amounts(ps) == [] && Percents(ps) == []
    ensures BankDetails(b, clientCode) in ps
  {
    var bank := BankDetails(b, clientCode);
    AmountsCons(bank, [Txt(PaymentWhatsAppOutro)]);
    NoFigures(PaymentWhatsAppOutro);
    AmountsCons(Txt(BlankLine), [bank, Txt(PaymentWhatsAppOutro)]);
    assert [bank] + [Txt(PaymentWhatsAppOutro)] == [bank, Txt(PaymentWhatsAppOutro)];
    assert [Txt(BlankLine)] + [bank, Txt(PaymentWhatsAppOutro)] == [Txt(BlankLine), bank, Txt(PaymentWhatsAppOutro)];
    [Txt(BlankLine), bank, Txt(PaymentWhatsAppOutro)]
  }

  /** The WhatsApp payment text: greeting, price, what to pay, bank details, closing line. */
  function WhatsAppPayment(greeting: string, b: BankingInfo, clientCode: string, total: real, deposit: real,
                           isNewClient: bool, serviceName: string, discountPercent: Option<real>): (ps: seq<Piece>)
    ensures Amounts(ps) == [total] + (if isNewClient then [deposit, total - deposit] else [total])
    ensures Percents(ps) == if DiscountOnWhatsApp(discountPercent) then [discountPercent.value] else []
    ensures BankDetails(b, clientCode) in ps
  {
    var w0 := [Txt(greeting + PaymentWhatsAppIntro)];
    var w1 := PriceDetails(serviceName, total, discountPercent);
    var w2 := [Txt(LineBreak)];
    var w3 := Instructions(total, deposit, isNewClient);
    var w4 := WhatsAppClosing(b, clientCode);
    NoFigures(greeting + PaymentWhatsAppIntro);
    NoFigures(LineBreak);
    AmountsAppend(w3, w4);
    assert Amounts(w3 + w4) == Amounts(w3) && Percents(w3 + w4) == [];
    AmountsAppend(w2, w3 + w4);
    assert Amounts(w2 + (w3 + w4)) == Amounts(w3) && Percents(w2 + (w3 + w4)) == [];
    AmountsAppend(w1, w2 + (w3 + w4));
    assert Amounts(w1 + (w2 + (w3 + w4))) == [total] + Amounts(w3);
    assert Percents(w1 + (w2 + (w3 + w4))) == Percents(w1);
    AmountsAppend(w0, w1 + (w2 + (w3 + w4)));
    w0 + (w1 + (w2 + (w3 + w4)))
  }

  /** The email payment body: greeting, total line, payment line, bank details. */
  function EmailPayment(greeting: string, b: BankingInfo, clientCode: string, total: real, deposit: real,
                        isNewClient: bool, serviceName: string, discountPercent: Option<real>): (ps: seq<Piece>)
    ensures Amounts(ps) == [total] + (if isNewClient then [deposit] else [])
    ensures Percents(ps) == if DiscountInEmail(discountPercent) then [discountPercent.value] else []
    ensures EmailBankDetails(b, clientCode) in ps
  {
    var e0 := [Txt(greeting)];
    var e1 := EmailPrice(serviceName, total, discountPercent);
    var e2 := [Txt(BlankLine)];
    var e3 := EmailInstructions(deposit, isNewClient);
    var e4 := [EmailBankDetails(b, clientCode)];
    NoFigures(greeting);
    NoFigures(BlankLine);
    AmountsCons(EmailBankDetails(b, clientCode), []);
    assert [EmailBankDetails(b, clientCode)] + [] == e4;
    AmountsAppend(e3, e4);
    AmountsAppend(e2, e3 + e4);
    AmountsAppend(e1, e2 + (e3 + e4));
    AmountsAppend(e0, e1 + (e2 + (e3 + e4)));
    e0 + (e1 + (e2 + (e3 + e4)))
  }

  /**
   * `getPaymentInfoMessage`: nothing to send without bank details.
   * Otherwise the texts state, as figures, the total first; then the deposit
   * and the remainder (total less deposit) for a new client, the total again
   * for anyone else, while the email gives the deposit only. WhatsApp shows
   * a positive discount, the email any non-zero one. Both carry the bank
   * details with the client's code as payment reference.
   */
  function PaymentInfo(patient: Patient, bankingInfo: Option<BankingInfo>, total: real, deposit: real,
                       isNewClient: bool, serviceName: string, discountPercent: Option<real>): (r: PaymentMessages)
    ensures bankingInfo.None? <==> r == PaymentMessages([], "", [])
    ensures bankingInfo.Some? ==>
      r.emailSubject == PaymentSubject
      && Amounts(r.whatsapp) == [total] + (if isNewClient then [deposit, total - deposit] else [total])
      && Amounts(r.emailBody) == [total] + (if isNewClient then [deposit] else [])
      && Percents(r.whatsapp) == (if DiscountOnWhatsApp(discountPercent) then [discountPercent.value] else [])
      && Percents(r.emailBody) == (if DiscountInEmail(discountPercent) then [discountPercent.value] else [])
      && BankDetails(bankingInfo.value, patient.clientCode) in r.whatsapp
      && EmailBankDetails(bankingInfo.value, patient.clientCode) in r.emailBody
  {
    if bankingInfo.None? then PaymentMessages([], "", [])
    else
      var greeting := Greeting(patient.fullName) + ",";
      PaymentMessages(
        WhatsAppPayment(greeting, bankingInfo.value, patient.clientCode, total, deposit, isNewClient, serviceName, discountPercent),
        PaymentSubject,
        EmailPayment(greeting, bankingInfo.value, patient.clientCode, total, deposit, isNewClient, serviceName, discountPercent))
  }

  /**
   * The figures the agenda sends a new client after settling a visit: the
   * deposit is a quarter of the price after discount and the remainder the
   * other three quarters.
   */
  lemma NewClientQuote(patient: Patient, b: BankingInfo, price: Option<real>, discount: Option<real>, serviceName: string,
                        s: AppointmentManager.Settlement)
    requires s == AppointmentManager.Settle(price, discount, true)
    ensures Amounts(PaymentInfo(patient, Some(b), s.finalPrice, s.deposit, true, serviceName, discount).whatsapp)
      == [s.finalPrice, s.finalPrice / 4.0, 3.0 * s.finalPrice / 4.0]
  {
    QuarterDepositQuote(patient, b, s.finalPrice, s.deposit, serviceName, discount);
  }

  /** A deposit of a quarter leaves three quarters to pay on the day. */
  lemma QuarterDepositQuote(patient: Patient, b: BankingInfo, finalPrice: real, deposit: real,
                            serviceName: string, discount: Option<real>)
    requires 4.0 * deposit == finalPrice
    ensures var m := PaymentInfo(patient, Some(b), finalPrice, deposit, true, serviceName, discount);
      Amounts(m.whatsapp) == [finalPrice, finalPrice / 4.0, 3.0 * finalPrice / 4.0]
  {
    var w := PaymentInfo(patient, Some(b), finalPrice, deposit, true, serviceName, discount).whatsapp;
    QuarterSplit(finalPrice, deposit);
    assert Amounts(w) == [finalPrice] + [deposit, finalPrice - deposit];
  }

  lemma QuarterSplit(t: real, d: real)
    requires 4.0 * d == t
    ensures [t] + [d, t - d] == [t, t / 4.0, 3.0 * t / 4.0]
  {
    assert d == t / 4.0 && t - d == 3.0 * t / 4.0;
  }
}
