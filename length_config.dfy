/**
 * The word budget of the service path: `lengthConfig[length] || lengthConfig.medium`.
 * The module `utils/lengthConfig` is not part of this model; its table is taken to hold
 * short = 100, medium = 200 and long = 400 words, the values of `lengthWords` in `server.js`.
 */
module LengthConfig {
  import opened Wrappers

  /** `lengthConfig[length]`. */
  function Lookup(length: string): Option<nat> {
    match length
    case "short" => Some(100)
    case "medium" => Some(200)
    case "long" => Some(400)
    case _ => None
  }

  /** The word budget for a requested length. */
  function MaxWords(length: string): nat {
    var w := Lookup(length);
    if w.Some? && w.value != 0 then w.value else Lookup("medium").GetOr(0)
  }

  /** The three known lengths get their own budgets; anything else gets the medium one. */
  lemma MaxWordsCases(length: string)
    ensures MaxWords(length) == 100 <==> length == "short"
    ensures MaxWords(length) == 400 <==> length == "long"
    ensures MaxWords(length) == 200 <==> length != "short" && length != "long"
  {
  }
}
