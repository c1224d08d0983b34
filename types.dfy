/**
 * The values the chat application stores and passes around: chat messages,
 * consultation sessions and the patient profile.
 *
 * JavaScript distinguishes an absent field (null or undefined) from the empty
 * string, but every test the application makes on these strings is a
 * truthiness test, under which both are false; the model writes both as "".
 */
module Types {
  import opened Wrappers

  /** `type: 'user'` or `type: 'bot'` of a chat message. */
  datatype Role = User | Bot

  /**
   * The parts of a generated-image URL: the prompt, the fixed output
   * dimensions, the random seed and the rendering model.
   */
  datatype ImageRequest = ImageRequest(prompt: string, width: nat, height: nat, seed: nat, model: string)

  /**
   * One chat message: `image` is a user-supplied data URL ("" when none),
   * `generatedImage` the picture requested on the bot's side.
   */
  datatype Message = Message(id: int, role: Role, text: string, image: string,
                             generatedImage: Option<ImageRequest>)

  /** A saved consultation. */
  datatype Session = Session(id: string, title: string, timestamp: int, messages: seq<Message>)

  /** The patient profile edited in the profile dialog. */
  datatype Profile = Profile(name: string, age: string, gender: string, medicalHistory: string)

  const WelcomeText: string :=
    "Hello! I am Dr. AI, your virtual " +
    "health assistant. How can I help " +
    "you today? You can speak to me, " +
    "describe your symptoms, or upload " +
    "an image."

  /** The greeting every new conversation starts with. */
  const Welcome: Message := Message(1, Bot, WelcomeText, "", None)

  /** The profile before anything was saved. */
  const EmptyProfile: Profile := Profile("", "", "", "")

  function UserMessage(id: int, text: string): Message
  {
    Message(id, User, text, "", None)
  }

  function BotMessage(id: int, text: string): Message
  {
    Message(id, Bot, text, "", None)
  }
}
