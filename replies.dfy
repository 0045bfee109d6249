/** The messages the registration handlers of main.py send. */
module Replies {
  import opened Filters

  /** An inline keyboard button and the callback data it sends back. */
  datatype Button = Button(caption: string, callbackData: string)

  /** The callback data `start_registration` is filtered on. */
  const RegisterCallbackData: string := "register"

  /** The button `send_welcome` offers to a new user. */
  const RegisterButton: Button := Button("Зарегистрироваться", RegisterCallbackData)

  /** What one update makes the bot send. */
  datatype Reply =
    | NoReply                          // no handler matched the update
    | AlreadyRegistered
    | OfferRegistration(button: Button)
    | AskFullName
    | AskPhoneNumber
    | AskWorkplace
    | Review(fullName: string, phoneNumber: string, workplace: string)
    | Registered

  const ReviewHead: string := "Проверьте ваши данные:\nФИО: "
  const PhoneNumberLabel: string := "\nНомер телефона: "
  const WorkplaceLabel: string := "\nМесто работы: "

  /** The word the review asks the user to send back. */
  const PromptedWord: string := "Подтверждаю"
  const ReviewTail: string := "\n\nЕсли все верно, отправьте '" + PromptedWord + "'."

  /** The text of each reply. */
  function ReplyText(r: Reply): (text: string)
    ensures text == [] <==> r == NoReply
  {
    match r
    case NoReply => ""
    case AlreadyRegistered => "Вы уже зарегистрированы! Добро пожаловать!"
    case OfferRegistration(_) =>
      "Добро пожаловать! Похоже, вы новый пользователь. Нажмите кнопку ниже для регистрации."
    case AskFullName => "Пожалуйста, введите ваше полное имя (Фамилия Имя Отчество):"
    case AskPhoneNumber => "Теперь введите ваш номер телефона:"
    case AskWorkplace => "Теперь укажите ваше место работы:"
    case Review(f, p, w) => ReviewHead + f + PhoneNumberLabel + p + WorkplaceLabel + w + ReviewTail
    case Registered => "Вы успешно зарегистрированы и теперь можете пользоваться ботом!"
  }

  /** `part` stands in `whole` starting at position `k`. */
  predicate OccursAt(part: string, whole: string, k: nat)
  {
    k + |part| <= |whole| && whole[k..k + |part|] == part
  }

  /**
   * The review message shows each of the three collected fields, each right
   * after its label, and ends by asking for the confirmation word.
   */
  lemma ReviewShowsFields(fullName: string, phoneNumber: string, workplace: string)
    ensures var t := ReplyText(Review(fullName, phoneNumber, workplace));
      var p := |ReviewHead| + |fullName| + |PhoneNumberLabel|;
      var w := p + |phoneNumber| + |WorkplaceLabel|;
      && |t| == w + |workplace| + |ReviewTail|
      && OccursAt(ReviewHead, t, 0)
      && OccursAt(fullName, t, |ReviewHead|)
      && OccursAt(PhoneNumberLabel, t, |ReviewHead| + |fullName|)
      && OccursAt(phoneNumber, t, p)
      && OccursAt(WorkplaceLabel, t, p + |phoneNumber|)
      && OccursAt(workplace, t, w)
      && OccursAt(PromptedWord, t, w + |workplace| + |ReviewTail| - |PromptedWord| - 2)
  {
  }

  /** The word the review asks for passes the confirmation filter. */
  lemma PromptedWordConfirms()
    ensures IsConfirm(PromptedWord)
  {
    assert PromptedWord == ['П'] + ConfirmWord[1..];
    CapitalizedConfirms(PromptedWord);
  }

  /** The confirmation word with a capital first letter passes the filter. */
  lemma CapitalizedConfirms(t: string)
    requires t == ['П'] + ConfirmWord[1..]
    ensures IsConfirm(t)
  {
    IsConfirmIff(t);
    assert ConfirmWord[0] == 'п';
    assert CaseVariant(t[0], ConfirmWord[0]);
  }
}
