/**
 * `handle_pace_message`: the bot's reply to a message typed while the pace
 * calculator is open. The message text arrives as a parameter; sending the reply
 * is left to the caller.
 */
module PaceHandler {
  import opened Wrappers
  import opened Text
  import opened Quantities
  import opened PaceScan
  import opened PaceParse
  import opened PaceCompute
  import opened PaceFormat

  const Prompt := "Введите хотя бы два значения, например: 10 км 55 мин"

  /** The reply for the stripped, non-empty text of a message. */
  function ReplyTo(text: string): Result<Option<string>, CalcError> {
    var parsed := Parse(text);
    if Count(parsed) < 2 then Success(Some(Prompt))
    else match Solve(parsed)
      case Success(solved) => Success(Some(FormatResult(solved)))
      case Failure(e) => Failure(e)
  }

  /**
   * `handle_pace_message(update, context)`: `None` for a message without text or with
   * only whitespace, the prompt when fewer than two quantities are recognised, the
   * formatted result otherwise; a division by zero in `compute` is the failure.
   */
  method HandlePaceMessage(message: Option<string>) returns (r: Result<Option<string>, CalcError>)
    ensures Strip(message.GetOr("")) == [] ==> r == Success(None)
    ensures Strip(message.GetOr("")) != [] ==> r == ReplyTo(Strip(message.GetOr("")))
  {
    var text := Strip(message.GetOr(""));
    if text == [] {
      return Success(None);
    }
    var parsed := ParseInput(text);
    var given := Count(parsed);
    if given < 2 {
      return Success(Some(Prompt));
    }
    var solved := Compute(parsed);
    match solved {
      case Success(s) => r := Success(Some(FormatResult(s)));
      case Failure(e) => r := Failure(e);
    }
  }

  /** A message without digits can name at most a race distance, so the reply is the prompt. */
  lemma NoDigitsGetsPrompt(text: string)
    requires forall k :: 0 <= k < |text| ==> !IsDigit(text[k])
    ensures ReplyTo(text) == Success(Some(Prompt))
  {
    ParseWithoutDigits(text);
  }

  /** From two or more non-zero quantities `compute` succeeds, and the reply has a line for every quantity unless only pace and speed were given. */
  lemma NonZeroSolvesFully(parsed: Slots)
    requires Count(parsed) >= 2 && NonZero(parsed)
    ensures Solve(parsed).Success?
    ensures |ResultLines(Solve(parsed).value)| == (if PaceSpeedOnly(parsed) then 3 else 5)
  {
    SolveNonZero(parsed);
    SolveCompletes(parsed);
    var solved := Solve(parsed).value;
    if PaceSpeedOnly(parsed) {
      assert Count(solved) == 2;
    } else {
      assert Count(solved) == 4;
    }
  }

  /** Two or more recognised quantities, none of them zero: the reply is the result, with a line for every quantity unless only pace and speed were given. */
  lemma NonZeroGetsFullResult(text: string)
    requires Count(Parse(text)) >= 2 && NonZero(Parse(text))
    ensures Solve(Parse(text)).Success?
    ensures ReplyTo(text) == Success(Some(FormatResult(Solve(Parse(text)).value)))
    ensures |ResultLines(Solve(Parse(text)).value)| == (if PaceSpeedOnly(Parse(text)) then 3 else 5)
  {
    NonZeroSolvesFully(Parse(text));
  }
}
