/**
 * The update handler of the bot: the module-level set of users who returned
 * from the checkout, and the messages each update makes the bot send. A send
 * is a value appended to the returned list; delivering it is not modelled.
 */
module UpdateHandler {
  import opened Wrappers
  import opened Catalogue
  import opened PaidLink
  import opened Updates

  /** One outbound call: `sendVideo(chatId, fileId, caption)` or `sendMessage(chatId, text)`. */
  datatype Intent = Video(chatId: int, fileId: string, caption: string) | Text(chatId: int, text: string)

  const ThanksText: string := "✅ Спасибо за покупку! Вот ваш курс:"
  const WelcomeCaption: string := "🎬 Добро пожаловать! Это бесплатное вступление."
  const CheckoutLead: string := "🔓 Чтобы получить полный курс, оплатите доступ:\n\n<a href=\""
  const CheckoutTail: string := "\">👉 Перейти к оплате</a>"

  /** The payment prompt: the configured checkout URL is embedded as it is. */
  function CheckoutText(url: string): (text: string) {
    CheckoutLead + url + CheckoutTail
  }

  /** The checkout URL can be read back out of the prompt unchanged. */
  lemma CheckoutTextEmbedsUrl(url: string)
    ensures var text := CheckoutText(url);
            |text| == |CheckoutLead| + |url| + |CheckoutTail| &&
            text[|CheckoutLead|..|CheckoutLead| + |url|] == url
  {
  }

  /** Different checkout URLs give different prompts. */
  lemma CheckoutTextInjective(a: string, b: string)
    requires CheckoutText(a) == CheckoutText(b)
    ensures a == b
  {
    CheckoutTextEmbedsUrl(a);
    CheckoutTextEmbedsUrl(b);
  }

  /** The two sends of an ordinary start: the free video, then the payment prompt. */
  function WelcomeSends(chatId: int, welcomeFileId: string, checkoutUrl: string): (sends: seq<Intent>) {
    [Video(chatId, welcomeFileId, WelcomeCaption), Text(chatId, CheckoutText(checkoutUrl))]
  }

  /** `sends` is one video per lesson, in catalogue order. */
  predicate SendsLessons(sends: seq<Intent>, chatId: int, lessons: seq<Lesson>) {
    |sends| == |lessons| &&
    forall i :: 0 <= i < |lessons| ==> sends[i] == Video(chatId, lessons[i].fileId, lessons[i].caption)
  }

  /** No lesson carries the welcome caption, so the catalogue never contains the welcome video. */
  lemma NoWelcomeAmongLessons(sends: seq<Intent>, chatId: int, lessons: seq<Lesson>, welcomeFileId: string)
    requires WellFormed(lessons)
    requires SendsLessons(sends, chatId, lessons)
    ensures Video(chatId, welcomeFileId, WelcomeCaption) !in sends
  {
  }

  class Bot {
    const welcomeFileId: string
    const checkoutUrl: string
    /** `PAID_VIDEOS`. */
    const paidVideos: seq<Lesson>
    /** `paidUsers`: ids added on a successful payment return; the handler never reads it. */
    var paidUsers: set<int>

    ghost predicate Valid()
      reads this
    {
      WellFormed(paidVideos)
    }

    /** The configuration the process starts with, and an empty set of paid users. */
    constructor (welcomeFileId: string, checkoutUrl: string, video1: Option<string>, video2: Option<string>, video3: Option<string>)
      ensures Valid()
      ensures this.welcomeFileId == welcomeFileId && this.checkoutUrl == checkoutUrl
      ensures paidVideos == PaidVideos(video1, video2, video3)
      ensures paidUsers == {}
    {
      this.welcomeFileId := welcomeFileId;
      this.checkoutUrl := checkoutUrl;
      this.paidVideos := PaidVideos(video1, video2, video3);
      this.paidUsers := {};
      new;
      PaidVideosWellFormed(video1, video2, video3);
    }

    /** `PAID_VIDEOS.forEach(video => sendVideo(chatId, video.fileId, video.caption))`. */
    method SendCatalogue(chatId: int) returns (sends: seq<Intent>)
      ensures SendsLessons(sends, chatId, paidVideos)
    {
      sends := [];
      for i := 0 to |paidVideos|
        invariant SendsLessons(sends, chatId, paidVideos[..i])
      {
        sends := sends + [Video(chatId, paidVideos[i].fileId, paidVideos[i].caption)];
      }
      assert paidVideos[..|paidVideos|] == paidVideos;
    }

    /** The successful payment return: remember the sender, thank them, send the whole catalogue. */
    method Activate(chatId: int, userId: int) returns (sends: seq<Intent>)
      requires Valid()
      modifies this
      ensures paidUsers == old(paidUsers) + {userId}
      ensures userId in old(paidUsers) ==> paidUsers == old(paidUsers)
      ensures |sends| >= 1 && sends[0] == Text(chatId, ThanksText)
      ensures SendsLessons(sends[1..], chatId, paidVideos)
      ensures Video(chatId, welcomeFileId, WelcomeCaption) !in sends
    {
      paidUsers := paidUsers + {userId};
      var lessons := SendCatalogue(chatId);
      sends := [Text(chatId, ThanksText)] + lessons;
      assert sends[1..] == lessons;
      NoWelcomeAmongLessons(lessons, chatId, paidVideos, welcomeFileId);
    }

    /** The ordinary start: the free welcome video, then the checkout link. */
    method Welcome(chatId: int) returns (sends: seq<Intent>)
      ensures sends == WelcomeSends(chatId, welcomeFileId, checkoutUrl)
    {
      sends := [Video(chatId, welcomeFileId, WelcomeCaption)];
      var prodamusLink := checkoutUrl;
      var text := CheckoutLead + prodamusLink + CheckoutTail;
      sends := sends + [Text(chatId, text)];
    }

    /**
     * The body of the `/start` branch for a given parameter: a payment return
     * for the sender activates and returns early; anything else, including a
     * link naming another user, falls through to the welcome.
     */
    method HandleStart(chatId: int, userId: int, param: Option<string>) returns (sends: seq<Intent>)
      requires Valid()
      modifies this
      ensures old(paidUsers) <= paidUsers
      ensures IsPaymentReturnFor(param, userId) ==>
                paidUsers == old(paidUsers) + {userId} &&
                |sends| >= 1 && sends[0] == Text(chatId, ThanksText) &&
                SendsLessons(sends[1..], chatId, paidVideos)
      ensures !IsPaymentReturnFor(param, userId) ==>
                paidUsers == old(paidUsers) && sends == WelcomeSends(chatId, welcomeFileId, checkoutUrl)
    {
      if IsPaymentReturnFor(param, userId) {
        sends := Activate(chatId, userId);
        return;
      }
      sends := Welcome(chatId);
    }

    /**
     * `handleUpdate`. It never changes `paidUsers`: the start branch only runs
     * for the exact text `/start`, which carries no parameter.
     */
    method HandleUpdate(update: Update) returns (sends: seq<Intent>, threw: bool)
      requires Valid()
      modifies this
      ensures paidUsers == old(paidUsers)
      ensures update.message.None? ==> sends == [] && !threw
      ensures update.message.Some? && (update.message.value.chat.None? || update.message.value.from.None?) ==>
                sends == [] && threw
      ensures update.message.Some? && update.message.value.chat.Some? && update.message.value.from.Some? ==>
                !threw &&
                if update.message.value.text == Some(StartCommand)
                then sends == WelcomeSends(update.message.value.chat.value.id, welcomeFileId, checkoutUrl)
                else sends == []
    {
      var route := Classify(update);
      match route
      case NoMessage =>
        sends, threw := [], false;
      case TypeError =>
        sends, threw := [], true;
      case NotStart =>
        sends, threw := [], false;
      case Start(chatId, userId, param) =>
        StartNeverCarriesParam(update);
        sends := HandleStart(chatId, userId, param);
        threw := false;
    }
  }
}
