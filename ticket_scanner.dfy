/**
 * The ticket scanner: the check on the captured image, the cleaning of the
 * text reply of the extraction service, the coercion of the parsed reply into
 * a list of entries, and the confirmation that turns those entries into
 * service records for the host screen.
 *
 * The extraction service itself is not part of this model: its text reply
 * (or its failure) is an input, and `JSON.parse` is an abstract table.
 */
module TicketScanner {
  import opened Js

  const ImagePrefix := "data:image"
  /** Three backticks: the closing fence, and the start of the opening one. */
  const Fence := "```"
  const PaymentCard := "Tarjeta"

  /** `s` begins with "```json", the four letters in any case: what `/^```json/i` matches. */
  predicate HasOpeningFence(s: string) {
    && |s| >= 7
    && s[..3] == Fence
    && LowerAscii(s[3]) == 'j' && LowerAscii(s[4]) == 's'
    && LowerAscii(s[5]) == 'o' && LowerAscii(s[6]) == 'n'
  }

  /** `w` is the word `json` with each letter in either case. */
  predicate JsonInAnyCase(w: string) {
    && |w| == 4
    && (w[0] == 'j' || w[0] == 'J') && (w[1] == 's' || w[1] == 'S')
    && (w[2] == 'o' || w[2] == 'O') && (w[3] == 'n' || w[3] == 'N')
  }

  /** With the `i` flag, the opening fence is three backticks followed by `json` in any mix of cases, and nothing else. */
  lemma OpeningFenceAnyCase(s: string)
    ensures HasOpeningFence(s) <==> |s| >= 7 && s[..3] == Fence && JsonInAnyCase(s[3..7])
  {
  }

  /**
   * `replace(/^```json\s*\/i, '')`: an opening fence and the white space after
   * it are removed; any other string is left alone.
   */
  function StripOpeningFence(s: string): (r: string)
    ensures HasOpeningFence(s) ==>
      && |r| <= |s| - 7 && r == s[|s| - |r|..]
      && AllSpace(s[7..|s| - |r|])
      && (r == [] || !IsSpace(r[0]))
    ensures !HasOpeningFence(s) ==> r == s
  {
    if HasOpeningFence(s) then
      var r := TrimStart(s[7..]);
      assert s[7..|s| - |r|] == s[7..][..|s| - 7 - |r|];
      r
    else
      s
  }

  /**
   * `replace(/\s*```$/i, '')`: a closing fence at the very end and the white
   * space before it are removed; any other string is left alone.
   */
  function StripClosingFence(s: string): (r: string)
    ensures EndsWith(s, Fence) ==>
      && |r| <= |s| - 3 && r == s[..|r|]
      && AllSpace(s[|r|..|s| - 3])
      && (r == [] || !IsSpace(r[|r| - 1]))
    ensures !EndsWith(s, Fence) ==> r == s
  {
    if EndsWith(s, Fence) then
      var r := TrimEnd(s[..|s| - 3]);
      assert s[|r|..|s| - 3] == s[..|s| - 3][|r|..];
      r
    else
      s
  }

  /** The cleaning of the reply text before `JSON.parse`: trim, drop the fences, trim again. */
  function CleanReply(text: string): (r: string)
    ensures Trimmed(r)
    ensures |r| <= |text|
  {
    Trim(StripClosingFence(StripOpeningFence(Trim(text))))
  }

  /** A reply without fences is only trimmed. */
  lemma CleanReplyFenceFree(text: string)
    requires !HasOpeningFence(Trim(text)) && !EndsWith(Trim(text), Fence)
    ensures CleanReply(text) == Trim(text)
  {
    TrimIdempotent(text);
  }

  /** An opening fence followed by white space is stripped up to the first other character. */
  lemma StripOpeningFencePadded(open: string, pre: string, rest: string)
    requires |open| == 7 && HasOpeningFence(open)
    requires AllSpace(pre) && (rest == [] || !IsSpace(rest[0]))
    ensures StripOpeningFence(open + (pre + rest)) == rest
  {
    AppendSplit(open, pre + rest);
    TrimStartPadded(pre, rest);
  }

  /** A closing fence preceded by white space is stripped back to the last other character. */
  lemma StripClosingFencePadded(body: string, post: string)
    requires AllSpace(post) && (body == [] || !IsSpace(body[|body| - 1]))
    ensures StripClosingFence(body + post + Fence) == body
  {
    AppendSplit(body + post, Fence);
    TrimEndPadded(body, post);
  }

  /** What is left of a fenced reply once its opening fence and the white space after it are gone. */
  function AfterOpeningFence(body: string, post: string): string {
    if body == [] then Fence else body + post + Fence
  }

  lemma FencedReplyTrimmed(open: string, pre: string, body: string, post: string)
    requires |open| == 7 && HasOpeningFence(open)
    ensures Trim(open + pre + body + post + Fence) == open + pre + body + post + Fence
  {
    var text := open + pre + body + post + Fence;
    assert text[0] == '`' && text[|text| - 1] == '`';
    TrimOfTrimmed(text);
  }

  lemma FencedReplyOpening(open: string, pre: string, body: string, post: string)
    requires |open| == 7 && HasOpeningFence(open)
    requires AllSpace(pre) && AllSpace(post) && Trimmed(body)
    ensures StripOpeningFence(open + pre + body + post + Fence) == AfterOpeningFence(body, post)
  {
    AppendAssoc(open, pre, body);
    AppendAssoc(open, pre + body, post);
    AppendAssoc(open, pre + body + post, Fence);
    AppendAssoc(pre, body, post);
    AppendAssoc(pre, body + post, Fence);
    if body == [] {
      assert body + post + Fence == post + Fence;
      AppendAssoc(pre, post, Fence);
      AllSpaceAppend(pre, post);
      StripOpeningFencePadded(open, pre + post, Fence);
    } else {
      StripOpeningFencePadded(open, pre, body + post + Fence);
    }
  }

  lemma FencedReplyClosing(body: string, post: string)
    requires AllSpace(post) && Trimmed(body)
    ensures StripClosingFence(AfterOpeningFence(body, post)) == body
  {
    if body == [] {
      assert Fence == [] + [] + Fence;
      StripClosingFencePadded([], []);
    } else {
      StripClosingFencePadded(body, post);
    }
  }

  /**
   * A body with no white space at its ends, wrapped in an opening fence (in any
   * case), white space, and a closing fence, is cleaned back to the body.
   */
  lemma CleanReplyFenced(open: string, pre: string, body: string, post: string)
    requires |open| == 7 && HasOpeningFence(open)
    requires AllSpace(pre) && AllSpace(post) && Trimmed(body)
    ensures CleanReply(open + pre + body + post + Fence) == body
  {
    FencedReplyTrimmed(open, pre, body, post);
    FencedReplyOpening(open, pre, body, post);
    FencedReplyClosing(body, post);
    TrimOfTrimmed(body);
  }

  /** The parsed reply holds a `services` array. */
  predicate HasServicesList(parsed: Json)
    requires parsed != JNull
  {
    Prop(parsed, "services").Some? && Prop(parsed, "services").value.JArr?
  }

  /**
   * The shape coercion of the parsed reply: a `services` array is taken as the
   * list of entries, verbatim; otherwise an object with a truthy `date` is a
   * list of one entry; anything else (a `null` reply included, whose property
   * read throws) is an error, written `None`.
   */
  function CoerceReply(parsed: Json): (r: Option<seq<Json>>)
    ensures parsed == JNull ==> r == None
    ensures parsed != JNull && HasServicesList(parsed) ==>
      r == Some(Prop(parsed, "services").value.items)
    ensures parsed != JNull && !HasServicesList(parsed) && Truthy(Prop(parsed, "date")) ==>
      r == Some([parsed])
    ensures r == None <==>
      parsed == JNull || (!HasServicesList(parsed) && !Truthy(Prop(parsed, "date")))
    ensures r.Some? ==> parsed.JObj?
  {
    if parsed == JNull then None
    else if HasServicesList(parsed) then Some(Prop(parsed, "services").value.items)
    else if Truthy(Prop(parsed, "date")) then Some([parsed])
    else None
  }

  /** Coercion never produces an empty list except from an empty `services` array. */
  lemma CoerceReplyEmpty(parsed: Json)
    ensures CoerceReply(parsed) == Some([]) <==>
      parsed != JNull && HasServicesList(parsed) && Prop(parsed, "services").value.items == []
  {
  }

  /** One service record emitted on confirmation. Fields read from an entry keep their JSON value. */
  datatype ScannedService = ScannedService(
    date: Json,
    origin: Json,
    destination: Json,
    company: Json,
    price: string,
    discountPercent: string,
    observations: Json,
    paymentMethod: string)

  /**
   * The record built from one entry: the typed amount, no discount, paid by
   * card, and every missing or falsy field replaced by "" (the date by `today`).
   */
  function ScanEntry(e: Json, price: string, today: string): (s: ScannedService)
    requires e != JNull
    ensures s.price == price && s.discountPercent == "0" && s.paymentMethod == PaymentCard
    ensures Truthy(Prop(e, "date")) ==> Some(s.date) == Prop(e, "date")
    ensures !Truthy(Prop(e, "date")) ==> s.date == JStr(today)
    ensures Truthy(Prop(e, "origin")) ==> Some(s.origin) == Prop(e, "origin")
    ensures !Truthy(Prop(e, "origin")) ==> s.origin == JStr("")
    ensures Truthy(Prop(e, "destination")) ==> Some(s.destination) == Prop(e, "destination")
    ensures !Truthy(Prop(e, "destination")) ==> s.destination == JStr("")
    ensures Truthy(Prop(e, "company")) ==> Some(s.company) == Prop(e, "company")
    ensures !Truthy(Prop(e, "company")) ==> s.company == JStr("")
    ensures Truthy(Prop(e, "observations")) ==> Some(s.observations) == Prop(e, "observations")
    ensures !Truthy(Prop(e, "observations")) ==> s.observations == JStr("")
  {
    ScannedService(
      OrText(Prop(e, "date"), today),
      OrText(Prop(e, "origin"), ""),
      OrText(Prop(e, "destination"), ""),
      OrText(Prop(e, "company"), ""),
      price,
      "0",
      OrText(Prop(e, "observations"), ""),
      PaymentCard)
  }

  /**
   * `extractedData.map(...)`: one record per entry, in order. A `null` entry
   * makes the property read throw, written `None`.
   */
  function ScanEntries(entries: seq<Json>, price: string, today: string): (r: Option<seq<ScannedService>>)
    ensures r.Some? <==> JNull !in entries
    ensures r.Some? ==> |r.value| == |entries|
    ensures r.Some? ==> forall i :: 0 <= i < |entries| ==> r.value[i] == ScanEntry(entries[i], price, today)
  {
    if JNull in entries then None
    else Some(seq(|entries|, i requires 0 <= i < |entries| => ScanEntry(entries[i], price, today)))
  }

  /** The amount guard: `!priceInput || parseFloat(priceInput) <= 0`. NaN is not `<= 0`. */
  predicate AmountRejected(floats: FloatTable, priceInput: string) {
    priceInput == "" || (ParseFloat(floats, priceInput).Some? && ParseFloat(floats, priceInput).value <= 0.0)
  }

  /** A non-empty amount that does not parse as a number passes the amount guard. */
  lemma NonNumericAmountAccepted(floats: FloatTable, priceInput: string)
    requires priceInput != "" && ParseFloat(floats, priceInput) == None
    ensures !AmountRejected(floats, priceInput)
  {
  }

  /** How `processImage` ends. */
  datatype ScanOutcome =
    | InvalidImage                    // no data URI: rejected before any request
    | NoReply                         // the request failed or the reply holds no text
    | UnreadableReply                 // the cleaned text does not parse or has neither shape
    | Extracted(entries: seq<Json>)

  /** What the reply text (`None` when the request failed) yields once cleaned, parsed and coerced. */
  function ReadReply(reply: Option<string>, json: JsonTable): (r: ScanOutcome)
    ensures r != InvalidImage
    ensures r == NoReply <==> reply == None || reply == Some("")
    ensures r.Extracted? ==>
      && reply.Some?
      && ParseJson(json, CleanReply(reply.value)).Some?
      && CoerceReply(ParseJson(json, CleanReply(reply.value)).value) == Some(r.entries)
    ensures reply.Some? && reply.value != "" ==>
      (r.Extracted? <==>
        && ParseJson(json, CleanReply(reply.value)).Some?
        && CoerceReply(ParseJson(json, CleanReply(reply.value)).value).Some?)
  {
    if reply == None || reply == Some("") then NoReply
    else
      match ParseJson(json, CleanReply(reply.value))
      case None => UnreadableReply
      case Some(parsed) =>
        match CoerceReply(parsed)
        case None => UnreadableReply
        case Some(entries) => Extracted(entries)
  }

  /** How `handleConfirm` ends. */
  datatype ConfirmOutcome = NothingExtracted | AmountMissing | EntryUnreadable | Emitted(count: nat)

  /** A call back into the host screen. */
  datatype HostCall = ServicesExtracted(services: seq<ScannedService>) | Closed

  class TicketScannerScreen {
    var showCamera: bool
    var capturedImage: Option<string>
    var isProcessing: bool
    var extractedData: seq<Json>
    var priceInput: string
    /** Every image sent to the extraction service, oldest first. */
    var requests: seq<string>
    /** Every call into the host's `onServicesExtracted` and `onClose`, oldest first. */
    var hostCalls: seq<HostCall>

    /** The `useState` initial values. */
    constructor ()
      ensures !showCamera && capturedImage == None && !isProcessing
      ensures extractedData == [] && priceInput == ""
      ensures requests == [] && hostCalls == []
    {
      showCamera := false;
      capturedImage := None;
      isProcessing := false;
      extractedData := [];
      priceInput := "";
      requests := [];
      hostCalls := [];
    }

    /** The screen shows nothing captured, nothing extracted, no camera, no amount. */
    predicate IsReset()
      reads this
    {
      capturedImage == None && extractedData == [] && !showCamera && priceInput == ""
    }

    /**
     * `processImage`. `reply` is the text the extraction service answers with
     * (`None` when the request or the response fails); `json` is `JSON.parse`.
     * The entries are replaced only when the reply has one of the two shapes,
     * and `isProcessing` is clear at the end whatever happens.
     */
    method ProcessImage(image: string, reply: Option<string>, json: JsonTable) returns (outcome: ScanOutcome)
      modifies this`isProcessing, this`extractedData, this`requests
      ensures !isProcessing
      ensures !StartsWith(image, ImagePrefix) ==> outcome == InvalidImage && requests == old(requests)
      ensures StartsWith(image, ImagePrefix) ==>
        outcome == ReadReply(reply, json) && requests == old(requests) + [image]
      ensures extractedData == if outcome.Extracted? then outcome.entries else old(extractedData)
    {
      isProcessing := true;
      if !StartsWith(image, ImagePrefix) {
        outcome := InvalidImage;
      } else {
        requests := requests + [image];
        if reply == None || reply == Some("") {
          outcome := NoReply;
        } else {
          var cleaned := CleanReply(reply.value);
          var parsed := ParseJson(json, cleaned);
          if parsed.None? {
            outcome := UnreadableReply;
          } else {
            var entries := CoerceReply(parsed.value);
            if entries.None? {
              outcome := UnreadableReply;
            } else {
              extractedData := entries.value;
              outcome := Extracted(entries.value);
            }
          }
        }
      }
      isProcessing := false;
    }

    /**
     * `handleConfirm`: with at least one entry and an amount that passes the
     * guard, hand one record per entry to the host, reset, and close.
     */
    method HandleConfirm(floats: FloatTable, today: string) returns (outcome: ConfirmOutcome)
      modifies this
      ensures isProcessing == old(isProcessing) && requests == old(requests)
      ensures old(extractedData) == [] ==> outcome == NothingExtracted
      ensures old(extractedData) != [] && AmountRejected(floats, old(priceInput)) ==> outcome == AmountMissing
      ensures old(extractedData) != [] && !AmountRejected(floats, old(priceInput)) && JNull in old(extractedData) ==>
        outcome == EntryUnreadable
      ensures outcome.Emitted? <==>
        old(extractedData) != [] && !AmountRejected(floats, old(priceInput)) && JNull !in old(extractedData)
      ensures !outcome.Emitted? ==>
        && hostCalls == old(hostCalls)
        && extractedData == old(extractedData) && priceInput == old(priceInput)
        && capturedImage == old(capturedImage) && showCamera == old(showCamera)
      ensures outcome.Emitted? ==>
        && outcome.count == |old(extractedData)|
        && ScanEntries(old(extractedData), old(priceInput), today).Some?
        && hostCalls == old(hostCalls) + [ServicesExtracted(ScanEntries(old(extractedData), old(priceInput), today).value), Closed]
        && IsReset()
    {
      if |extractedData| == 0 {
        return NothingExtracted;
      }
      if AmountRejected(floats, priceInput) {
        return AmountMissing;
      }
      var services := ScanEntries(extractedData, priceInput, today);
      if services.None? {
        return EntryUnreadable;
      }
      hostCalls := hostCalls + [ServicesExtracted(services.value)];
      HandleReset();
      hostCalls := hostCalls + [Closed];
      outcome := Emitted(|services.value|);
    }

    /** `handleReset`: drop the image, the entries and the amount, and hide the camera. */
    method HandleReset()
      modifies this`capturedImage, this`extractedData, this`showCamera, this`priceInput
      ensures IsReset()
    {
      capturedImage := None;
      extractedData := [];
      showCamera := false;
      priceInput := "";
    }
  }
}
