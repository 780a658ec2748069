/**
 * The personalized message generator.
 *
 * A form holds a business name, a niche, a pain point and a tone. Generating
 * checks that the three text fields are filled in before anything is sent, posts
 * the four fields to the message-generation endpoint, and keeps the reply text as
 * the current message when the reply is ok and non-empty. A reply that is not ok,
 * an empty reply or an unreachable endpoint all end in the one catch-all handler
 * and leave the message as it was; the "generating" flag is reset on every path
 * that set it.
 *
 * The endpoint is foreign code: the request is recorded and the reply is an input.
 */
module Generator {
  import opened Wrappers

  /** The values the tone selector offers; the form starts on the first. */
  const ToneOptions: seq<string> := ["Bold", "Chill", "Friendly", "Consultant"]
  const InitialTone: string := "Bold"

  /** The body posted to the generation endpoint (JSON keys business_name, niche, pain_point, tone_style). */
  datatype GeneratePayload = GeneratePayload(businessName: string, niche: string, painPoint: string, toneStyle: string)

  /** What the endpoint answered: no response at all, or a status flag and the body read as text. */
  datatype Reply = Unreachable | Response(ok: bool, text: string)

  /** How one click of the generate button ended. */
  datatype GenerateResult =
    | Incomplete             // a required field is empty: error toast, no request
    | Generated(text: string) // the reply body became the message
    | Failed                 // the catch-all handler: not ok, empty body or no response

  /** The effect of one click: the request posted (if any), the message afterwards, the outcome. */
  datatype GenerateStep = GenerateStep(request: Option<GeneratePayload>, message: string, result: GenerateResult)

  /** The three fields the handler insists on before sending anything. */
  predicate FormComplete(businessName: string, niche: string, painPoint: string)
  {
    businessName != "" && niche != "" && painPoint != ""
  }

  /**
   * One click of the generate button, given the form, the message shown before
   * and the endpoint's reply.
   */
  function Generate(businessName: string, niche: string, painPoint: string, toneStyle: string,
                    message: string, reply: Reply): (s: GenerateStep)
    // validation comes before any request is made
    ensures s.request.None? <==> !FormComplete(businessName, niche, painPoint)
    ensures s.result == Incomplete <==> s.request.None?
    // a sent request whose reply is not accepted ends in the catch-all handler
    ensures s.result == Failed <==>
      s.request.Some? && !(reply.Response? && reply.ok && reply.text != "")
    // the payload carries exactly the four form fields
    ensures s.request.Some? ==> s.request.value == GeneratePayload(businessName, niche, painPoint, toneStyle)
    // only an ok, non-empty reply to a sent request is accepted
    ensures s.result.Generated? <==> s.request.Some? && reply.Response? && reply.ok && reply.text != ""
    // an accepted reply becomes the message verbatim; anything else leaves it unchanged
    ensures s.message == (if s.result.Generated? then reply.text else message)
    ensures s.result.Generated? ==> s.result.text == s.message && s.message != ""
  {
    if !FormComplete(businessName, niche, painPoint) then GenerateStep(None, message, Incomplete)
    else
      var request := Some(GeneratePayload(businessName, niche, painPoint, toneStyle));
      match reply
      case Unreachable => GenerateStep(request, message, Failed)
      case Response(ok, text) =>
        if !ok then GenerateStep(request, message, Failed)
        else if text == "" then GenerateStep(request, message, Failed)
        else GenerateStep(request, text, Generated(text))
  }

  /**
   * The component state of the generator: the four form fields, the message
   * shown, the "generating" flag, and the requests posted to the endpoint.
   */
  class PersonalizedGenerator {
    var businessName: string
    var niche: string
    var painPoint: string
    var toneStyle: string
    var message: string
    var isGenerating: bool
    var requests: seq<GeneratePayload>

    /** The tone is always one the selector offers, and so is every tone posted. */
    ghost predicate Valid()
      reads this
    {
      && toneStyle in ToneOptions
      && forall p | p in requests :: p.toneStyle in ToneOptions
    }

    constructor ()
      ensures Valid()
      ensures businessName == "" && niche == "" && painPoint == "" && toneStyle == InitialTone
      ensures message == "" && !isGenerating && requests == []
    {
      businessName, niche, painPoint, toneStyle := "", "", "", InitialTone;
      message, isGenerating, requests := "", false, [];
    }

    method SetBusinessName(value: string)
      modifies this`businessName
      ensures businessName == value
    {
      businessName := value;
    }

    method SetNiche(value: string)
      modifies this`niche
      ensures niche == value
    {
      niche := value;
    }

    method SetPainPoint(value: string)
      modifies this`painPoint
      ensures painPoint == value
    {
      painPoint := value;
    }

    /** The selector only ever reports one of its own options. */
    method SetToneStyle(value: string)
      requires Valid() && value in ToneOptions
      modifies this`toneStyle
      ensures toneStyle == value && Valid()
    {
      toneStyle := value;
    }

    /** The operator edits the generated message in place. */
    method EditMessage(value: string)
      modifies this`message
      ensures message == value
    {
      message := value;
    }

    /** The one request to the endpoint; it is only made while the flag is up. */
    method Post(payload: GeneratePayload)
      requires isGenerating
      requires Valid() && payload.toneStyle in ToneOptions
      modifies this`requests
      ensures requests == old(requests) + [payload]
      ensures Valid()
    {
      requests := requests + [payload];
    }

    /** The generate handler; `reply` is what the endpoint answers to the request it posts. */
    method HandleGenerate(reply: Reply) returns (r: GenerateResult)
      requires Valid()
      modifies this`message, this`isGenerating, this`requests
      ensures Valid()
      ensures var s := Generate(businessName, niche, painPoint, toneStyle, old(message), reply);
        && requests == old(requests) + (if s.request.Some? then [s.request.value] else [])
        && message == s.message
        && r == s.result
      ensures if FormComplete(businessName, niche, painPoint) then !isGenerating
              else isGenerating == old(isGenerating)
    {
      if businessName == "" || niche == "" || painPoint == "" {
        return Incomplete;
      }
      isGenerating := true;
      Post(GeneratePayload(businessName, niche, painPoint, toneStyle));
      r := Failed;
      label request: {
        if reply.Unreachable? {
          break request;
        }
        if !reply.ok {
          break request;
        }
        var data := reply.text;
        if data == "" {
          break request;
        }
        message := data;
        r := Generated(data);
      }
      isGenerating := false;
    }
  }
}
