/** The four decisions the engine can produce, and the strings the source
    uses for them. */
module Decisions {

  datatype Decision = DoNotEngage | AskAuthorization | DoNotKnow | Engage

  /** The label string the source returns for each decision. */
  function Label(d: Decision): string {
    match d
    case DoNotEngage => "Do Not Engage"
    case AskAuthorization => "Ask Authorization"
    case DoNotKnow => "Do Not Know"
    case Engage => "Engage"
  }

  /** Position on the score ladder of the threshold fallback, from the
      lowest band (Do Not Engage) to the highest (Engage). */
  function Rank(d: Decision): nat {
    match d
    case DoNotEngage => 0
    case DoNotKnow => 1
    case AskAuthorization => 2
    case Engage => 3
  }
}
