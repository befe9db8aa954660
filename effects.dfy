/**
 * The outside world as the handler sees it: each call into a service either
 * returns or throws, and every call the handler makes is recorded, in order,
 * as an effect.
 */
module Effects {

  /** Opaque byte content (an HTTP body). */
  type Bytes = seq<bv8>

  /** The outcome of one awaited call into code outside the model. */
  datatype Call<+T> = Returned(value: T) | Threw(reason: string)

  /** The stages of one invocation, in the order they run. */
  datatype Phase = Validating | Fetching | Generating | Persisting | Done {
    function Rank(): nat {
      match this
      case Validating => 0
      case Fetching => 1
      case Generating => 2
      case Persisting => 3
      case Done => 4
    }
  }

  /** One outbound call, recorded whether it then returned or threw. */
  datatype Effect =
    | HttpGet(url: string)
    | GenerateContent(model: string, prompt: string, mimeType: string, source: Bytes)
    | SaveObject(path: string, image: string, contentType: string, cacheControl: string)
    | SignReadUrl(path: string, expires: int)
    | MergeUserDoc(uid: string)
    | SetResultDoc(uid: string, resultId: string, imageUrl: string, imagePath: string, prompt: string)
  {
    /** The stage that makes this call. */
    function Stage(): Phase {
      match this
      case HttpGet(_) => Fetching
      case GenerateContent(_, _, _, _) => Generating
      case _ => Persisting
    }
  }

  /** A log runs strictly forward through the stages and stops at `halted`. */
  ghost predicate ForwardOnly(log: seq<Effect>, halted: Phase) {
    (forall i, j :: 0 <= i < j < |log| ==> log[i].Stage().Rank() <= log[j].Stage().Rank())
    && (forall i :: 0 <= i < |log| ==> log[i].Stage().Rank() <= halted.Rank())
  }
}
