# Course bot update handler, in Dafny

This project models the update handler of a Telegram course bot (`bot.js`). The
bot answers webhook updates. A message whose text is exactly `/start` gets a free
welcome video followed by a payment prompt that links to the Prodamus checkout.
The code also holds a payment-return branch. It is meant for `/start paid_<id>`:
it adds the sender to the in-memory set `paidUsers`, sends a thank-you text and
then every configured paid lesson video. The model proves that the branch
cannot run as written. The guard demands the text be exactly `/start`, so the
`split(' ')` that should extract the `paid_<id>` parameter never finds one.

Modules:

- `Wrappers`: `Option`, standing for a JavaScript value that may be `undefined`.
- `JsText`: `s.split(' ')` with its inverse `join(' ')`, and `startsWith`.
- `JsNumber`: the integer part of JavaScript's `Number(string)`, following
  section 7.1.4.1.1 of ECMA-262. Surrounding white space is trimmed, `''` is 0,
  and signed decimal digits and `0x`/`0o`/`0b` digits are read.
  This part also has `String(n)` and the round trip `Number(String(n)) === n`.
- `PaidLink`: the payment-return test on the deep-link parameter (`bot.js:99-101`).
- `Catalogue`: `PAID_VIDEOS`, the three configured lessons filtered to those whose
  file id is truthy (`bot.js:25-29`).
- `Updates`: the update shape and the routing decision of `handleUpdate` before any
  send (`bot.js:88-96`).
- `UpdateHandler`: the outbound `Intent` values and the class `Bot`. `Bot` holds
  the configuration and the mutable `paidUsers` set. Its method `HandleUpdate`
  returns the sends in order and whether the handler threw. The `/start` branch
  body is the separate method `HandleStart`. Its contract covers the payment
  return, which `HandleUpdate` can never reach.

Each send (`sendVideo`, `sendMessage`) is an `Intent` value appended to the
returned list. The environment values are constructor parameters. A `TypeError`
thrown when `message.chat` or `message.from` is missing is the `threw` result.
Only chat and sender ids, the text and the presence of the message are read from
an update.

## Model

| member | source | states |
|---|---|---|
| `JsText.Split` | bot.js:95 | `split(' ')` always yields at least one piece |
| `JsText.JoinSplit` | bot.js:95 | joining the pieces with single spaces gives back the original text |
| `JsText.SplitPiecesHaveNoSpace` | bot.js:95 | no piece contains a space |
| `JsText.SplitJoin` | bot.js:95 | splitting a join of space-free pieces gives back those pieces, so together with the two lemmas above the pieces are fully determined |
| `JsText.SplitHasSecondPieceIff` | bot.js:95-96 | `parts[1]` exists if and only if the text contains a space |
| `Updates.DeepLinkParamIff` | bot.js:95-96 | the parameter read from `parts[1]` is defined if and only if the text contains a space |
| `Updates.StartNeverCarriesParam` | bot.js:94-96 | whenever the `/start` branch is taken, the parameter is `undefined` |
| `Updates.StartRouteIff` | bot.js:88-94 | the start branch runs for chat `c` and sender `u` exactly when the update has a message with chat `c`, sender `u` and text `/start` |
| `Updates.DeepLinkIsNotStart` | bot.js:94 | the payment-return text `/start <param>` fails the exact-text guard, so it gets no reply at all |
| `JsNumber.TrimStartShape` | bot.js:100 | leading white space is dropped: the result is a suffix, everything removed is white space, and it does not start with white space |
| `JsNumber.TrimEndShape` | bot.js:100 | trailing white space is dropped: the result is a prefix, everything removed is white space, and it does not end with white space |
| `JsNumber.DecimalDigitsValue` | bot.js:100 | the decimal spelling of `n` is all digits, denotes `n`, and has no leading zero unless `n` is 0 |
| `JsNumber.NumberOfShowInt` | bot.js:100 | `Number` reads the decimal spelling of every integer back as that integer |
| `JsNumber.ShowIntInjective` | bot.js:100 | distinct integers have distinct spellings |
| `JsNumber.LeadingZerosValue` | bot.js:100 | leading zeros do not change the value of a digit string |
| `JsNumber.TrimPadded` | bot.js:100 | any white space before and after a literal that neither starts nor ends with white space is trimmed off |
| `JsNumber.NumberOfPaddedDigits` | bot.js:100 | `Number` reads the decimal spelling of `n` surrounded by white space and preceded by zeros as `n` |
| `PaidLink.OwnLinkAccepted` | bot.js:99-101 | `paid_<id>` passes for the user `<id>` |
| `PaidLink.ForeignLinkRefused` | bot.js:99-101 | `paid_<other>` fails for every sender whose id differs from `<other>` |
| `PaidLink.PaddedLinkAccepted` | bot.js:99-101 | the check is loose: `paid_` followed by white space, zeros, the sender's id and white space passes for that sender, so many distinct links activate one account |
| `Catalogue.Filter` | bot.js:29 | the filter never lengthens the list |
| `Catalogue.FilterAppend` | bot.js:29 | filtering distributes over concatenation, so the kept entries stay in their original order |
| `Catalogue.FilterMembership` | bot.js:29 | a lesson is kept if and only if an entry carries it with a non-empty file id |
| `Catalogue.FilterKeepsSetEntries` | bot.js:29 | when every file id is set, every entry is kept, position by position |
| `Catalogue.PaidVideos` | bot.js:25-29 | `PAID_VIDEOS` has at most 3 entries |
| `Catalogue.PaidVideosInOrder` | bot.js:25-29 | `PAID_VIDEOS` is exactly the entries among lessons 1, 2, 3 whose file id is truthy, in that order, with their captions |
| `Catalogue.PaidVideosWellFormed` | bot.js:25-29 | every entry of `PAID_VIDEOS` has a non-empty file id and one of the three lesson captions |
| `UpdateHandler.CheckoutTextEmbedsUrl` | bot.js:118-119 | the payment prompt contains the configured checkout URL verbatim at a fixed position, with nothing substituted |
| `UpdateHandler.CheckoutTextInjective` | bot.js:118-119 | different checkout URLs give different prompts |
| `UpdateHandler.NoWelcomeAmongLessons` | bot.js:26-28 | no catalogue video carries the welcome caption, so a catalogue send never includes the welcome video |
| `UpdateHandler.Bot.constructor` | bot.js:25-32 | the bot starts with the configured welcome file id and checkout URL, the filtered catalogue and no paid users |
| `UpdateHandler.Bot.SendCatalogue` | bot.js:105-107 | the `forEach` sends one video per catalogue entry, with its file id and caption, in catalogue order |
| `UpdateHandler.Bot.Activate` | bot.js:102-108 | the sender is added to `paidUsers` and the set is unchanged if they were already in it. The thank-you text comes first, then the whole catalogue in order, and no welcome video |
| `UpdateHandler.Bot.Welcome` | bot.js:113-120 | exactly two sends: the welcome video with the fixed caption, then the payment prompt |
| `UpdateHandler.Bot.HandleStart` | bot.js:99-120 | a payment return for the sender activates; any other parameter, including one naming another user, gets the welcome and leaves `paidUsers` alone; the set never shrinks |
| `UpdateHandler.Bot.HandleUpdate` | bot.js:87-122 | no message: no sends. A missing chat or sender: no sends and a thrown error. Text other than exactly `/start`: no sends. `/start`: exactly the welcome video, then the prompt. `paidUsers` is never changed |

## Left out

- The HTTP server (`bot.js:126-146`), the HTTPS requests inside `sendVideo` and `sendMessage` (`bot.js:36-69`) and `setWebhook` (`bot.js:72-83`) are I/O. Sends are `Intent` values only. The server turns a thrown error into status 400; that is the `threw` result of `HandleUpdate`.
- Environment loading, the `PORT` default and the startup exit when `BOT_TOKEN`, `WELCOME_VIDEO_FILE_ID` or `PRODAMUS_CHECKOUT_URL` is unset or empty (`bot.js:2-22`) are configuration plumbing. The relevant values are constructor parameters. `BOT_TOKEN` appears only in request URLs and is not modelled.
- `JsNumber.StringToNumber`: decimal literals with a fraction or an exponent (`5.0`, `5e0`) are read as NaN, although JavaScript reads them as numbers. This is the only shape for which the model's decision on the payment link can differ from the source's. `Infinity` and non-integral values can never equal an integer id, so reading them as NaN gives the same decision.
- `JsNumber.StringToNumber`: integers are exact, whereas JavaScript rounds to a double beyond 2^53. If the sender's id is below 2^53, a suffix whose value is 2^53 or more can never match in either reading. For such ids the two agree.
- Message fields other than `chat.id`, `from.id` and `text` are not modelled. A `chat` or `from` object present without an `id` is not modelled either; Telegram always sends one.
- Concurrency: the handler runs to completion for one update at a time on Node's event loop. The model is sequential.
- The set `paidUsers` is written but never read by the code. `bot.js` has no drip scheduling, no activation time, no per-user lesson progress and no notice for a link that names another user, so none is modelled. The checkout URL is sent unchanged, without the user id substituted into it, and text other than `/start` gets no reply.
