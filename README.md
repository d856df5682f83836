# Contoso Dentistry virtual assistant — a Dafny model of its bot logic

The bot (`DentaBot`, in `starter/ContosoDentistryChatBot/bot.js`) answers chat
messages for a dental office. For each message it queries a knowledge base
hosted by the language service, asks an intent recognizer (LUIS) what the user
wants, and then sends exactly one reply, chosen by a priority chain:

1. the first knowledge-base answer, unless the list is empty or the answer is
   the sentinel `No answer found`;
2. the scheduler's availability text, when `GetAvailability` is the top intent
   with a score strictly above 0.85;
3. a booking through the scheduler with the text of the first extracted `time`
   entity, when `ScheduleAppointment` is the top intent with a score strictly
   above 0.6 and a `time` entity is present;
4. the fixed text `Could you say that differently? I had trouble understanding it.`

When members join a conversation it sends one welcome message per member
other than the bot itself.

The model has seven modules, one file each:

- `Wrappers` (`wrappers.dfy`): `Option` and `Result`.
- `Channel` (`channel.dfy`): channel accounts, outgoing activities, and the
  errors a turn can stop with. `Failure` is an error that a backend threw.
  `TypeError` is what JavaScript throws when the code reads a property of
  `undefined`.
- `QueryString` (`query_string.dfy`): a plain splitter of a URL into the
  path before the first `?` and the query fields between `&`, each split at its
  first `=` into a name and a value. It knows nothing of a `#` fragment and
  does no `%` or `+` decoding. The request URL is checked against this
  splitter.
- `KnowledgeQuery` (`knowledge_query.dfy`): the URL, headers and body of the
  knowledge-base query. The host name, project name and key that the source
  reads from the process environment are passed in as an `Environment`.
- `Dispatch` (`dispatch.dfy`): the data carried by the two backend results,
  the pure function `Decide` that models the priority chain, and lemmas that
  characterise each branch in both directions.
- `Greeter` (`greeter.dfy`): the members-added loop, a method checked against
  the filter `Greeted`.
- `DentaBot` (`bot.dfy`): the message handler, as a method that runs the awaits
  in order.

The backends are inputs, written as functions from their input to a `Result`:
the HTTP post of the query, the intent recognizer and the scheduler's two
calls. A turn records which backends it called and what it sent, so that
"no scheduler call is made" and "no reply is sent" can be stated.

Some behaviour of the code is modelled as written:

- A `time` entity whose list of occurrences is empty passes the code's presence
  test (an empty array is truthy). Reading `time[0].text` then throws, so the
  turn fails with `TypeError("text")` and sends nothing. It does not fall
  back.
- When the top intent is `GetAvailability` or `ScheduleAppointment` but the
  recognizer reported no score for it, reading `.score` throws
  (`TypeError("score")`).
- The intent recognizer runs before the decision, even when the knowledge base
  has an answer. So a failed recognition makes the turn fail although the
  reply would not have used it.
- The two queries run one after the other, knowledge base first. A failed
  knowledge query means the recognizer is never called.
- A reply is not necessarily non-empty: a knowledge-base answer or a scheduler
  text is passed on as it is.

## Model

| member | source | states |
|---|---|---|
| `KnowledgeQuery.KnowledgeRequest` | starter/ContosoDentistryChatBot/bot.js:71-88 | the request goes to the endpoint URL; the subscription-key header carries the key and the content type is JSON; the body asks for the top 3 answers with confidence threshold 0.5, includes unstructured sources and passes the question on unchanged |
| `KnowledgeQuery.RequestUrlRoundTrip` | starter/ContosoDentistryChatBot/bot.js:72-77 | splitting the URL at '?', '&' and '=' gives back the path `host + /language/:query-knowledgebases` and exactly the parameters projectName, api-version=2021-10-01 and deploymentName=production, in that order |
| `KnowledgeQuery.RequestUrl` | starter/ContosoDentistryChatBot/bot.js:72-77 | the template literal of the request URL; it has no contract of its own, and `RequestUrlRoundTrip` is its partner, showing the splitter reads the endpoint and the three parameters back |
| `Dispatch.HasKbAnswer` | starter/ContosoDentistryChatBot/bot.js:31 | the knowledge-base test: a response body whose `answers` list is present, non-empty and whose first answer is not `No answer found`; it has no contract of its own and is used by `KnowledgeBasePriority` and the other branch lemmas |
| `Dispatch.Decide` | starter/ContosoDentistryChatBot/bot.js:31-50 | the priority chain; it has no contract of its own and is characterised in both directions by `KnowledgeBasePriority`, `AvailabilityBranch`, `ScheduleBranch`, `FallbackBranch` and `DecisionFails` |
| `Dispatch.TopIntentAbove` | starter/ContosoDentistryChatBot/bot.js:34-40 | an intent test holds exactly when the intent is the top one and its score is strictly above the threshold; it throws exactly when the intent is the top one and has no score |
| `Dispatch.KnowledgeBasePriority` | starter/ContosoDentistryChatBot/bot.js:31-33 | a non-empty answer list whose first answer is not the sentinel gives that answer, whatever the intent result; the decision is a knowledge-base answer only in that case |
| `Dispatch.AvailabilityBranch` | starter/ContosoDentistryChatBot/bot.js:34-38 | availability is reported if and only if the knowledge base has no answer and GetAvailability is the top intent with a score above 0.85 |
| `Dispatch.AvailabilityThresholdIsStrict` | starter/ContosoDentistryChatBot/bot.js:35 | a score of exactly 0.85 never reports availability |
| `Dispatch.ScheduleBranch` | starter/ContosoDentistryChatBot/bot.js:39-46 | a booking of `t` is decided if and only if the knowledge base has no answer, ScheduleAppointment is the top intent with a score above 0.6, the time entity has an occurrence, and `t` is the text of the first occurrence |
| `Dispatch.SchedulingThresholdIsStrict` | starter/ContosoDentistryChatBot/bot.js:40 | a score of exactly 0.6 never books |
| `Dispatch.FallbackBranch` | starter/ContosoDentistryChatBot/bot.js:47-49 | the fallback is decided if and only if no branch applies and no score read throws |
| `Dispatch.DecisionFails` | starter/ContosoDentistryChatBot/bot.js:34-46 | the decision throws if and only if the knowledge base has no answer and either a checked top intent has no score or the booking branch applies with an empty time list |
| `Dispatch.OpeningHoursExample` | starter/ContosoDentistryChatBot/bot.js:31-33 | a knowledge-base answer "We are open 9-5." is the reply, whatever the intent result |
| `Dispatch.OpeningsExample` | starter/ContosoDentistryChatBot/bot.js:34-38 | no answers and GetAvailability at 0.9 report availability |
| `Dispatch.BookingExample` | starter/ContosoDentistryChatBot/bot.js:44 | with the sentinel answer and two extracted times, the first time is booked |
| `Dispatch.EmptyTimeEntityExample` | starter/ContosoDentistryChatBot/bot.js:41-44 | an empty time list passes the presence test and the read of its first text throws |
| `Dispatch.GibberishExample` | starter/ContosoDentistryChatBot/bot.js:47-49 | the sentinel answer and a low-scoring other intent give the fallback |
| `Greeter.OnMembersAdded` | starter/ContosoDentistryChatBot/bot.js:55-66 | the loop sends exactly `Greetings(members, recipient id)`: one welcome activity (text and speech) per member in `Greeted` |
| `Greeter.GreetedMembers` | starter/ContosoDentistryChatBot/bot.js:62-63 | a member is greeted if and only if it joined and its id differs from the bot's |
| `Greeter.GreetedAppend` | starter/ContosoDentistryChatBot/bot.js:62-66 | greeting follows the joining order: the greeted members of a concatenation are those of the first part, then those of the second |
| `Greeter.GreetingCount` | starter/ContosoDentistryChatBot/bot.js:58-66 | the number of welcome messages equals the number of joined members whose id differs from the bot's, and every message is the welcome text |
| `Greeter.TwoJoinsAsOne` | starter/ContosoDentistryChatBot/bot.js:55-69 | the handler keeps no memory: two join events send what one event with both lists sends |
| `DentaBot.QueryCognitiveLanguageService` | starter/ContosoDentistryChatBot/bot.js:71-114 | the query posts the knowledge request built for the question and returns the post's result; an error is rethrown unchanged |
| `DentaBot.Reply` | starter/ContosoDentistryChatBot/bot.js:31-50 | a knowledge-base answer and the fallback reply without a scheduler call; availability calls only `getAvailability` and booking only `scheduleAppointment(time)`, and their result is the reply |
| `DentaBot.OnMessage` | starter/ContosoDentistryChatBot/bot.js:25-52 | a failed turn sends nothing and a completed turn sends exactly one reply; the knowledge query comes first and, if it fails, nothing else is called; a failed recognition ends the turn; otherwise each decision determines the scheduler calls, the reply and the status |

## Left out

- Bot construction (bot.js:11-23), including the check that throws when `configuration` is missing: the model has no bot object. The connectors built there are the service inputs of `OnMessage`. The `QnAMaker` connector (line 17) is never used on the message path.
- The HTTP post through axios and the bot framework runtime (`ActivityHandler`, `MessageFactory`, `context.sendActivity`, `next()`): these are foreign libraries. The post is an input function. Sending is modelled as appending to `sent`, and it cannot fail in the model.
- `DentistScheduler` and `IntentRecognizer` are not part of this model. Their results are inputs. `executeLuisQuery` receives the whole turn context; the model hands it the message text.
- Logging (`console.log`, `console.error`): observability only.
- Environment variables: passed as `Environment`. An unset variable, which the template literal would render as `undefined`, is not modelled.
- async/await: a turn is modelled as sequential.
- The shapes of the backend results are taken as given. `luisResult.prediction.topIntent` and `entities` are assumed present. Each knowledge-base answer is assumed to carry a string `answer`, and `answers`, when present, is assumed to be an array.
- Scores are modelled as `real` and compared with the decimals 0.85 and 0.6, not with the nearest binary doubles. No floating-point arithmetic is involved.
- `KnowledgeQuery.RequestUrlRoundTrip`: holds only for a host without `?` and a project name without `&`, because the source inserts the project name into the URL without percent-encoding it. It is stated against a plain `?`/`&`/`=` splitter, not a full URL parser: a `#` in the host or project name, or a `%` or `+` in the project name, would be read differently by a real web service, which this lemma does not cover.
