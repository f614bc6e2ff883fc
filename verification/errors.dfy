/** The errors the core can raise (`src/errors.ts`, plus the host errors the
    engines can trigger).
 */
module Errors {

  import opened Tree

  datatype Error =
      /** `NgxInputError`: a directive value of no recognised shape. */
    | InputError(message: string, value: Value)
      /** `TypeError` from the default value stringifier. */
    | TypeError(message: string)
      /** `RangeError`: `String.prototype.repeat` with a negative count, or
          the host's call stack running out. */
    | RangeError(message: string)
      /** A block instance that is not an object (see README, "Left out"). */
    | UnsupportedInstance(path: seq<string>, value: Value)
  {
    /** The text of an `NgxInputError`: its message, then a preview of the
        serialised value cut at `MaxPreview` code points. The serialiser
        (`JSON.stringify`) is a parameter. */
    function Message(serialize: Value -> string): (m: string)
      requires InputError?
      ensures |message| + 2 <= |m| <= |message| + 2 + MaxPreview + 3
      ensures m[..|message| + 2] == message + ": "
      ensures var text := serialize(value);
              |text| <= MaxPreview ==> m == message + ": " + text
      ensures var text := serialize(value);
              |text| > MaxPreview ==> m == message + ": " + text[..MaxPreview] + "..."
    {
      message + ": " + Ellipsis(serialize(value), MaxPreview)
    }
  }

  const MaxPreview: nat := 42

  /** `ellipsis(text, maxLength)` */
  function Ellipsis(text: string, maxLength: nat): (r: string)
    ensures |text| <= maxLength ==> r == text
    ensures |text| > maxLength ==> |r| == maxLength + 3 && r == text[..maxLength] + "..."
    ensures |r| <= maxLength + 3
    ensures r[..if |text| < maxLength then |text| else maxLength] == text[..if |text| < maxLength then |text| else maxLength]
  {
    if |text| > maxLength then text[..maxLength] + "..." else text
  }
}
