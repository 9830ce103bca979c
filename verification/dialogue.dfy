/**
 * The decision made by the bot's message handler (chatbot.js): from the
 * user's current state, the answers collected so far and the trimmed text of
 * the new message, the next state, the new answers and the messages sent
 * back. States are the strings the source stores, so a value outside the
 * enumeration (such as the store's 'inicial') is representable and takes the
 * handler's default branch.
 */
module Dialogue {
  import opened Wrappers
  import opened JsString
  import opened CollectedData

  // ------------------------------------------------------------- states

  /**
   * The `STATES` enumeration, and `Unlisted` for any other string, which the
   * handler's `default` branch takes.
   */
  datatype State =
    | Initial | WaitingOkStart | WaitingProblemType | WaitingProblemDescription | WaitingOkQuestions
    | AskingName | AskingSector | AskingCostCenter | AskingPhone | AskingEmail | AskingPatrimony
    | WaitingConfirmation | WaitingRestartChoice
    | Unlisted(name: string)

  /** The string the source stores for a state. */
  function StateName(s: State): string {
    match s
    case Initial => "initial"
    case WaitingOkStart => "waiting_ok_start"
    case WaitingProblemType => "waiting_problem_type"
    case WaitingProblemDescription => "waiting_problem_description"
    case WaitingOkQuestions => "waiting_ok_questions"
    case AskingName => "asking_name"
    case AskingSector => "asking_sector"
    case AskingCostCenter => "asking_cost_center"
    case AskingPhone => "asking_phone"
    case AskingEmail => "asking_email"
    case AskingPatrimony => "asking_patrimony"
    case WaitingConfirmation => "waiting_confirmation"
    case WaitingRestartChoice => "waiting_restart_choice"
    case Unlisted(name) => name
  }

  /** The thirteen states of the enumeration. */
  predicate IsDialogueState(s: State) {
    !s.Unlisted?
  }

  /** The state a stored string selects in the handler's switch. */
  function ParseState(name: string): (s: State)
    ensures StateName(s) == name
  {
    if name == "initial" then Initial
    else if name == "waiting_ok_start" then WaitingOkStart
    else if name == "waiting_problem_type" then WaitingProblemType
    else if name == "waiting_problem_description" then WaitingProblemDescription
    else if name == "waiting_ok_questions" then WaitingOkQuestions
    else if name == "asking_name" then AskingName
    else if name == "asking_sector" then AskingSector
    else if name == "asking_cost_center" then AskingCostCenter
    else if name == "asking_phone" then AskingPhone
    else if name == "asking_email" then AskingEmail
    else if name == "asking_patrimony" then AskingPatrimony
    else if name == "waiting_confirmation" then WaitingConfirmation
    else if name == "waiting_restart_choice" then WaitingRestartChoice
    else Unlisted(name)
  }

  /** Every enumerated state's name selects that state: the thirteen names are distinct. */
  lemma StateNamesDistinct(s: State)
    requires IsDialogueState(s)
    ensures ParseState(StateName(s)) == s
  {
  }

  /** The six states that store the message, unchecked, in one slot. */
  predicate IsAskingState(s: State) {
    s.AskingName? || s.AskingSector? || s.AskingCostCenter? ||
    s.AskingPhone? || s.AskingEmail? || s.AskingPatrimony?
  }

  /** The slot an asking state fills. */
  function AskedField(s: State): Field
    requires IsAskingState(s)
  {
    match s
    case AskingName => Name
    case AskingSector => Sector
    case AskingCostCenter => CostCenter
    case AskingPhone => Phone
    case AskingEmail => Email
    case AskingPatrimony => Patrimony
  }

  /** The state that follows an asking state: the fixed order of the questions. */
  function NextAsked(s: State): State
    requires IsAskingState(s)
  {
    match s
    case AskingName => AskingSector
    case AskingSector => AskingCostCenter
    case AskingCostCenter => AskingPhone
    case AskingPhone => AskingEmail
    case AskingEmail => AskingPatrimony
    case AskingPatrimony => WaitingConfirmation
  }

  /** The slots a turn in state `s` may write. */
  function SlotOf(s: State): set<Field> {
    if s == WaitingProblemType then {ProblemType}
    else if s == WaitingProblemDescription then {ProblemDescription}
    else if IsAskingState(s) then {AskedField(s)}
    else {}
  }

  // ----------------------------------------------------------- messages

  /**
   * The texts the handler sends, by name: `Summary` is the confirmation
   * summary built from the answers, every other one a fixed text.
   */
  datatype Message =
    | Greeting | AnswerQuestions | BeClear | ReplyOk
    | WelcomeAgain | ProblemTypeMenu | StartReprompt | ProblemTypeNoted | AskDescription
    | ProblemTypeReprompt | DescriptionNoted | AnnounceQuestions | DescriptionTooShort | AskName
    | QuestionsReprompt | AskSector | AskCostCenter | AskPhone | AskEmail
    | AskPatrimony | GeneratingRequest | AskConfirmation | ConversationClosed | RestartMenu
    | ConfirmationReprompt | AskDescriptionAgain | AskNameAgain | RestartReprompt
    | Summary(data: Data)

  /** The four messages that open a conversation. */
  const WELCOME := [Greeting, AnswerQuestions, BeClear, ReplyOk]

  /** The exact text of a message. */
  function Text(m: Message): string {
    match m
    case Greeting => "*TABORDA*\nOlá! Meu nome é Taborda! Sou o bot de suporte da área de TI."
    case AnswerQuestions => "*TABORDA*\nPreciso que você responda algumas perguntas para que o seu problema possa ser resolvido o quanto antes!"
    case BeClear => "*TABORDA*\n*Lembre-se: Responda tudo de forma clara e objetiva*"
    case ReplyOk => "*TABORDA*\nResponda *Ok* para continuar"
    case WelcomeAgain => "*TABORDA*\nOlá! Meu nome é Taborda! Sou o bot de suporte da área de TI. Preciso que você responda algumas perguntas para que o seu problema possa ser resolvido o quanto antes! *Lembre-se: Responda tudo de forma clara e objetiva.*\n\nResponda Ok para continuar"
    case ProblemTypeMenu => "*TABORDA*\nInforme seu tipo de problema:\n\n*Digite:*\n1 - para *Computador/notebook*\n2 - para *Impressão*\n3 - para *Internet*\n4 - para *Rede/Wifi*\n5 - para *Sistemas*\n6 - para *Outro*"
    case StartReprompt => "Por favor, responda 'Ok' para continuar."
    case ProblemTypeNoted => "*TABORDA*\nTipo de problema anotado ✅"
    case AskDescription => "*TABORDA*\nAgora, descreva com detalhes o seu problema. *Em uma única mensagem*"
    case ProblemTypeReprompt => "*TABORDA*\nPor favor, digite apenas um número de 1 a 6 para selecionar o tipo de problema."
    case DescriptionNoted => "*TABORDA*\nMuito bem, problema anotado ✅"
    case AnnounceQuestions => "*TABORDA*\nAgora irei te fazer algumas perguntas para concluir a sua Solicitação de Serviço. *Digite OK* para continuar"
    case DescriptionTooShort => "*TABORDA*\nA sua mensagem foi muito curta! Favor explicar com mais detalhes."
    case AskName => "*TABORDA*\nQual seu Nome Completo?"
    case QuestionsReprompt => "*TABORDA*\nPor favor, responda 'Ok' para continuar."
    case AskSector => "*TABORDA*\nQual seu setor, área ou departamento?"
    case AskCostCenter => "*TABORDA*\nQual seu Centro de Custo?"
    case AskPhone => "*TABORDA*\nQual seu telefone?"
    case AskEmail => "*TABORDA*\nQual seu e-mail?"
    case AskPatrimony => "*TABORDA*\nQual o Patrimônio dos equipamentos (se houver)?"
    case GeneratingRequest => "*TABORDA*\n🔁 Gerando Solicitação de Serviço"
    case AskConfirmation => "*TABORDA*\n Podemos confirmar a abertura da solicitação?\n Digite *Sim* para confirmar e encerrar a conversa ou *Não* para alterar algum dado."
    case ConversationClosed => "*TABORDA*\nConversa encerrada"
    case RestartMenu => "*TABORDA*\nAh, algum dado saiu errado. De onde deseja que eu comece novamente?\n\n*Digite:*\n1- Para que eu volte na pergunta do *Tipo de problema.*\n2- Para que eu volte na pergunta da *Descrição do problema.*\n3- Para que eu volte nas perguntas do *Seus dados e dos aparelhos problemáticos.*"
    case ConfirmationReprompt => "*TABORDA*\nPor favor, responda 'Sim' para confirmar ou 'Não' para alterar algum dado."
    case AskDescriptionAgain => "*TABORDA*\nPor favor, com detalhes, descreva o seu problema. *Em uma única mensagem!*"
    case AskNameAgain => "Qual seu Nome Completo?"
    case RestartReprompt => "*TABORDA*\nPor favor, digite apenas 1, 2 ou 3 para escolher de onde recomeçar."
    case Summary(data) => ConfirmationMessage(data)
  }

  /** The question that follows an answer given in an asking state. */
  function QuestionAfter(s: State): Message
    requires IsAskingState(s) && s != AskingPatrimony
  {
    match s
    case AskingName => AskSector
    case AskingSector => AskCostCenter
    case AskingCostCenter => AskPhone
    case AskingPhone => AskEmail
    case AskingEmail => AskPatrimony
  }

  /** The summary the user is asked to confirm, with "undefined" for an unset slot. */
  function ConfirmationMessage(data: Data): string {
    "*TABORDA*\nÓtimo! Para finalizar, por favor, confirme se os dados a seguir estão corretos:\n\n" +
    "☑ *Nome:* " + Render(data, Name) + "\n" +
    "☑ *Setor:* " + Render(data, Sector) + "\n" +
    "☑ *Centro de Custo:* " + Render(data, CostCenter) + "\n" +
    "☑ *Telefone:* " + Render(data, Phone) + "\n" +
    "☑ *E-mail:* " + Render(data, Email) + "\n" +
    "☑ *Patrimônio:* " + Render(data, Patrimony) + "\n\n" +
    "*Tipo do problema:* " + Render(data, ProblemType) + "\n" +
    "*E o problema é:* " + Render(data, ProblemDescription)
  }

  // ------------------------------------------------- validation rules

  /** `text >= "1" && text <= "6"`: JavaScript's string order, not a digit test. */
  predicate InMenuRange(text: string) {
    !Less(text, "1") && !Less("6", text)
  }

  /**
   * The problem-type table local to the handler: `problemTypes[text]`, which
   * is undefined for every other key (note "Outros" where the menu says "Outro").
   */
  function ProblemTypeLabel(text: string): Option<string> {
    if text == "1" then Some("Computador/notebook")
    else if text == "2" then Some("Impressão")
    else if text == "3" then Some("Internet")
    else if text == "4" then Some("Rede/Wifi")
    else if text == "5" then Some("Sistemas")
    else if text == "6" then Some("Outros")
    else None
  }

  /** The minimum length of a problem description, exclusive. */
  const MIN_DESCRIPTION_LENGTH := 20

  /** `data.f = value`, where assigning `undefined` leaves the slot unset. */
  function Assign(data: Data, f: Field, value: Option<string>): Data {
    if value.Some? then data[f := value.value] else data - {f}
  }

  // ----------------------------------------------------------- the step

  /** One user's entry in `userStates`. */
  datatype Conv = Conv(state: State, data: Data)

  /** What a turn does: the new entry (None: the entry is deleted) and the messages sent. */
  datatype Reply = Reply(next: Option<Conv>, out: seq<Message>)

  /**
   * The handler's switch on the current state, for the trimmed message text.
   * Every turn sends something; only "sim" at the confirmation deletes the
   * entry; every surviving entry is in an enumerated, non-initial state; a
   * turn that does not move leaves the answers alone and sends one re-prompt;
   * and no turn writes a slot other than the one its state collects.
   */
  function Step(state: State, data: Data, text: string): (r: Reply)
    ensures |r.out| >= 1
    ensures r.next.None? <==> state == WaitingConfirmation && ToLowerCase(text) == "sim"
    ensures r.next.Some? ==> IsDialogueState(r.next.value.state) && r.next.value.state != Initial
    ensures r.next.Some? && r.next.value.state == state ==> r.next.value.data == data && |r.out| == 1
    ensures r.next.Some? ==> r.next.value.data - SlotOf(state) == data - SlotOf(state)
  {
    var stay := Reply(Some(Conv(state, data)), []);
    match state
    case Initial =>
      Reply(Some(Conv(WaitingOkStart, data)), WELCOME)
    case WaitingOkStart =>
      if ToLowerCase(text) == "ok" then Reply(Some(Conv(WaitingProblemType, data)), [ProblemTypeMenu])
      else stay.(out := [StartReprompt])
    case WaitingProblemType =>
      if InMenuRange(text) then
        Reply(Some(Conv(WaitingProblemDescription, Assign(data, ProblemType, ProblemTypeLabel(text)))),
              [ProblemTypeNoted, AskDescription])
      else stay.(out := [ProblemTypeReprompt])
    case WaitingProblemDescription =>
      if Length(text) > MIN_DESCRIPTION_LENGTH then
        Reply(Some(Conv(WaitingOkQuestions, data[ProblemDescription := text])),
              [DescriptionNoted, AnnounceQuestions])
      else stay.(out := [DescriptionTooShort])
    case WaitingOkQuestions =>
      if ToLowerCase(text) == "ok" then Reply(Some(Conv(AskingName, data)), [AskName])
      else stay.(out := [QuestionsReprompt])
    case AskingPatrimony =>
      var collected := data[Patrimony := text];
      Reply(Some(Conv(WaitingConfirmation, collected)),
            [GeneratingRequest, Summary(collected), AskConfirmation])
    case AskingName | AskingSector | AskingCostCenter | AskingPhone | AskingEmail =>
      Reply(Some(Conv(NextAsked(state), data[AskedField(state) := text])), [QuestionAfter(state)])
    case WaitingConfirmation =>
      var answer := ToLowerCase(text);
      if answer == "sim" then Reply(None, [ConversationClosed])
      else if answer == "não" || answer == "nao" || answer == "Não" || answer == "Nao" then
        Reply(Some(Conv(WaitingRestartChoice, data)), [RestartMenu])
      else stay.(out := [ConfirmationReprompt])
    case WaitingRestartChoice =>
      if text == "1" then Reply(Some(Conv(WaitingProblemType, data)), [ProblemTypeMenu])
      else if text == "2" then Reply(Some(Conv(WaitingProblemDescription, data)), [AskDescriptionAgain])
      else if text == "3" then Reply(Some(Conv(AskingName, data)), [AskNameAgain])
      else stay.(out := [RestartReprompt])
    case Unlisted(_) =>
      Reply(Some(Conv(WaitingOkStart, data)), [WelcomeAgain])
  }

  // ------------------------------------------------- per-state properties

  /** "ok" in any case: the only inputs a lower-cased comparison with "ok" lets through. */
  lemma SaysOk(text: string)
    ensures ToLowerCase(text) == "ok" <==>
      |text| == 2 && (text[0] == 'o' || text[0] == 'O') &&
      (text[1] == 'k' || text[1] == 'K' || text[1] == KELVIN_SIGN)
  {
    ToLowerCaseEquals(text, "ok");
    if |text| == 2 {
      LowerCharIs(text[0], 'o');
      LowerCharIs(text[1], 'k');
      assert (forall i :: 0 <= i < |text| ==> LowerChar(text[i]) == ["ok"[i]]) <==>
        LowerChar(text[0]) == ['o'] && LowerChar(text[1]) == ['k'];
    }
  }

  /** The code points that lower-case to a given ASCII letter. */
  lemma LowerCharIs(c: char, letter: char)
    requires 'a' <= letter <= 'z'
    ensures LowerChar(c) == [letter] <==>
      c == letter || c as int == letter as int - 32 || (letter == 'k' && c == KELVIN_SIGN)
  {
  }

  /** From `initial` any message sends the four welcome messages and moves on, answers untouched. */
  lemma InitialWelcomes(data: Data, text: string)
    ensures Step(Initial, data, text) == Reply(Some(Conv(WaitingOkStart, data)), WELCOME)
    ensures |WELCOME| == 4
  {
  }

  /**
   * The two "ok" gates: a case-insensitive "ok" opens the next step, anything
   * else changes nothing and is answered with one re-prompt.
   */
  lemma OkGate(state: State, data: Data, text: string)
    requires state == WaitingOkStart || state == WaitingOkQuestions
    ensures var r := Step(state, data, text);
      var start := state == WaitingOkStart;
      var target := if start then WaitingProblemType else AskingName;
      (ToLowerCase(text) == "ok" ==>
        r == Reply(Some(Conv(target, data)), [if start then ProblemTypeMenu else AskName])) &&
      (ToLowerCase(text) != "ok" ==>
        r == Reply(Some(Conv(state, data)), [if start then StartReprompt else QuestionsReprompt]))
  {
  }

  /**
   * The problem-type check compares strings, so it accepts exactly the texts
   * that begin with a digit from 1 to 5, and the text "6".
   */
  lemma {:induction false} InMenuRangeExactly(text: string)
    ensures InMenuRange(text) <==> text != [] && ('1' <= text[0] <= '5' || text == "6")
  {
    var u := CodeUnits(text);
    assert CodeUnits("1") == [0x31];
    assert CodeUnits("6") == [0x36];
    if text == [] {
      assert Less(text, "1");
    } else {
      var c := text[0];
      assert u[0] == Units(c)[0];
      assert u[0] < 0x36 <==> c as int < 0x36;
      assert !Less(text, "1") <==> u[0] >= 0x31 by {
        if u[0] == 0x31 {
          assert UnitsLess(u, [0x31]) == UnitsLess(u[1..], []);
        }
      }
      assert !Less("6", text) <==> u[0] < 0x36 || u == [0x36] by {
        if u[0] == 0x36 {
          assert UnitsLess([0x36], u) == UnitsLess([], u[1..]);
          assert u[1..] == [] <==> u == [0x36];
        }
      }
      assert u == [0x36] <==> text == "6" by {
        if u == [0x36] {
          assert |text| == 1 && c as int == 0x36;
          assert text == [c];
        }
      }
    }
  }

  /**
   * A text in the range is accepted and its table label stored (an unknown
   * key leaves the slot unset); any other text changes nothing and is
   * answered with the range re-prompt.
   */
  lemma ProblemTypeChoice(data: Data, text: string)
    ensures var r := Step(WaitingProblemType, data, text);
      (InMenuRange(text) ==>
        r == Reply(Some(Conv(WaitingProblemDescription, Assign(data, ProblemType, ProblemTypeLabel(text)))),
                   [ProblemTypeNoted, AskDescription])) &&
      (!InMenuRange(text) ==> r == Reply(Some(Conv(WaitingProblemType, data)), [ProblemTypeReprompt]))
  {
  }

  /** "10" and "5x" pass the check and leave the problem type unset; "7" and "0" do not pass. */
  lemma ProblemTypeOddInputs(data: Data)
    ensures Step(WaitingProblemType, data, "10").next == Some(Conv(WaitingProblemDescription, data - {ProblemType}))
    ensures Step(WaitingProblemType, data, "5x").next == Some(Conv(WaitingProblemDescription, data - {ProblemType}))
    ensures Step(WaitingProblemType, data, "7").next == Some(Conv(WaitingProblemType, data))
    ensures Step(WaitingProblemType, data, "0").next == Some(Conv(WaitingProblemType, data))
    ensures Step(WaitingProblemType, data, "6").next == Some(Conv(WaitingProblemDescription, data[ProblemType := "Outros"]))
    ensures Step(WaitingProblemType, data, "3").next == Some(Conv(WaitingProblemDescription, data[ProblemType := "Internet"]))
  {
    InMenuRangeExactly("10");
    InMenuRangeExactly("5x");
    InMenuRangeExactly("7");
    InMenuRangeExactly("0");
    InMenuRangeExactly("6");
    InMenuRangeExactly("3");
  }

  /**
   * A description is accepted exactly when it is longer than 20 code units;
   * it is then stored and the bot asks for the "ok" to the personal questions.
   */
  lemma DescriptionLength(data: Data, text: string)
    ensures var r := Step(WaitingProblemDescription, data, text);
      (Length(text) > 20 ==>
        r == Reply(Some(Conv(WaitingOkQuestions, data[ProblemDescription := text])),
                   [DescriptionNoted, AnnounceQuestions])) &&
      (Length(text) <= 20 ==> r == Reply(Some(Conv(WaitingProblemDescription, data)), [DescriptionTooShort]))
  {
  }

  /**
   * The boundary for text without astral code points (one code unit each):
   * twenty characters are too short, twenty-one are enough.
   */
  lemma DescriptionBoundary(data: Data, text: string)
    requires forall i :: 0 <= i < |text| ==> text[i] as int < FIRST_ASTRAL
    ensures |text| == 20 ==>
      Step(WaitingProblemDescription, data, text).next == Some(Conv(WaitingProblemDescription, data))
    ensures |text| == 21 ==>
      Step(WaitingProblemDescription, data, text).next ==
        Some(Conv(WaitingOkQuestions, data[ProblemDescription := text]))
  {
    BmpLength(text);
    DescriptionLength(data, text);
  }

  /**
   * Each asking state stores the text, unchecked, in its own slot, leaves the
   * other slots alone and asks the next question; after the patrimony the
   * summary shows every answer, the one just given included.
   */
  lemma AskingChain(state: State, data: Data, text: string)
    requires IsAskingState(state)
    ensures var r := Step(state, data, text);
      r.next == Some(Conv(NextAsked(state), data[AskedField(state) := text]))
    ensures state != AskingPatrimony ==> Step(state, data, text).out == [QuestionAfter(state)]
    ensures state == AskingPatrimony ==>
      Step(state, data, text).out == [GeneratingRequest, Summary(data[Patrimony := text]), AskConfirmation]
  {
  }

  /** The questions come in one fixed order and end at the confirmation. */
  lemma AskingOrder()
    ensures NextAsked(AskingName) == AskingSector && AskedField(AskingName) == Name
    ensures NextAsked(AskingSector) == AskingCostCenter && AskedField(AskingSector) == Sector
    ensures NextAsked(AskingCostCenter) == AskingPhone && AskedField(AskingCostCenter) == CostCenter
    ensures NextAsked(AskingPhone) == AskingEmail && AskedField(AskingPhone) == Phone
    ensures NextAsked(AskingEmail) == AskingPatrimony && AskedField(AskingEmail) == Email
    ensures NextAsked(AskingPatrimony) == WaitingConfirmation && AskedField(AskingPatrimony) == Patrimony
  {
  }

  /** The capitalised alternatives of the confirmation check can never match a lower-cased text. */
  lemma CapitalisedAnswersNeverMatch(text: string)
    ensures ToLowerCase(text) != "Não" && ToLowerCase(text) != "Nao"
  {
    var lower := ToLowerCase(text);
    if |lower| > 0 {
      assert !IsAsciiUpper(lower[0]);
    }
  }

  /**
   * At the confirmation: "sim" in any case ends the conversation, "não" or
   * "nao" opens the restart menu with the answers kept, anything else is
   * re-prompted.
   */
  lemma Confirmation(data: Data, text: string)
    ensures var r := Step(WaitingConfirmation, data, text);
      var answer := ToLowerCase(text);
      (answer == "sim" ==> r == Reply(None, [ConversationClosed])) &&
      (answer == "não" || answer == "nao" ==> r == Reply(Some(Conv(WaitingRestartChoice, data)), [RestartMenu])) &&
      (answer != "sim" && answer != "não" && answer != "nao" ==>
        r == Reply(Some(Conv(WaitingConfirmation, data)), [ConfirmationReprompt]))
  {
    CapitalisedAnswersNeverMatch(text);
  }

  /**
   * The restart menu routes "1", "2" and "3" back into the flow without
   * clearing any answer, each with its own question; every other text
   * changes nothing and is re-prompted.
   */
  lemma RestartChoice(data: Data, text: string)
    ensures var r := Step(WaitingRestartChoice, data, text);
      (text == "1" ==> r == Reply(Some(Conv(WaitingProblemType, data)), [ProblemTypeMenu])) &&
      (text == "2" ==> r == Reply(Some(Conv(WaitingProblemDescription, data)), [AskDescriptionAgain])) &&
      (text == "3" ==> r == Reply(Some(Conv(AskingName, data)), [AskNameAgain])) &&
      (text != "1" && text != "2" && text != "3" ==>
        r == Reply(Some(Conv(WaitingRestartChoice, data)), [RestartReprompt]))
  {
  }

  /** A state outside the enumeration restarts the dialogue at the "ok" gate and keeps the answers. */
  lemma UnknownStateRestarts(name: string, data: Data, text: string)
    requires !IsDialogueState(ParseState(name))
    ensures Step(ParseState(name), data, text) == Reply(Some(Conv(WaitingOkStart, data)), [WelcomeAgain])
  {
  }

  /** The store's reset value 'inicial' is not the dialogue's 'initial': it selects the default branch. */
  lemma StoreResetStateIsUnknown()
    ensures ParseState("inicial") == Unlisted("inicial")
  {
  }
}
