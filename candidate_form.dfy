/**
 * The candidate questionnaire (ai_app_frontend/src/components/CandidateForm.js):
 * its state, the per-question edits, and submission with validation, payload
 * assembly and reset. The question banks are parameters; the backend call is
 * reduced to whether it succeeded.
 */
module CandidateForm {
  import opened Wrappers
  import Text

  /** A multiple-choice question: id, prompt and the option texts. */
  datatype ChoiceQuestion = ChoiceQuestion(id: int, text: string, options: seq<string>)

  /** A free-text question: id and prompt. */
  datatype TextQuestion = TextQuestion(id: int, text: string)

  /** One entry of the submitted `answers` array. */
  datatype PayloadAnswer =
    | Mc(id: int, question: string, selected: string)   // {type: 'mc', …}
    | TextAnswer(id: int, question: string, answer: string)   // {type: 'text', …}

  /** The body posted to the backend. */
  datatype Payload = Payload(name: string, phone: string, answers: seq<PayloadAnswer>)

  const ValidationMessage := "Vui lòng nhập họ tên và số điện thoại."
  const SubmitFailedMessage := "Có lỗi xảy ra khi gửi đơn. Vui lòng thử lại sau."

  /** `String.fromCharCode(65 + k)`: the letter shown for option `k`. */
  function OptionLetter(k: nat): (letter: string)
    requires k < 0xD800 - 65
    ensures |letter| == 1 && letter[0] as int == 65 + k
  {
    [(65 + k) as char]
  }

  /** The letters offered for a question, in option order. */
  function OfferedLetters(q: ChoiceQuestion): (letters: seq<string>)
    requires |q.options| < 0xD800 - 65
    ensures |letters| == |q.options|
    ensures forall k :: 0 <= k < |letters| ==> letters[k] == OptionLetter(k)
  {
    seq(|q.options|, k requires 0 <= k < |q.options| => OptionLetter(k))
  }

  /** A question with four options offers exactly A, B, C and D. */
  lemma FourOptionsOfferAToD(q: ChoiceQuestion)
    requires |q.options| == 4
    ensures OfferedLetters(q) == ["A", "B", "C", "D"]
  {
    var l := OfferedLetters(q);
    assert l[0] == "A" && l[1] == "B" && l[2] == "C" && l[3] == "D";
  }

  /** The multiple-choice part of the payload, in bank order. */
  function ChoiceEntries(bank: seq<ChoiceQuestion>, picks: seq<string>): (r: seq<PayloadAnswer>)
    requires |bank| == |picks|
    ensures |r| == |bank|
    ensures forall k :: 0 <= k < |r| ==> r[k] == Mc(bank[k].id, bank[k].text, picks[k])
  {
    if bank == [] then [] else [Mc(bank[0].id, bank[0].text, picks[0])] + ChoiceEntries(bank[1..], picks[1..])
  }

  /** The free-text part of the payload, in bank order. */
  function TextEntries(bank: seq<TextQuestion>, texts: seq<string>): (r: seq<PayloadAnswer>)
    requires |bank| == |texts|
    ensures |r| == |bank|
    ensures forall k :: 0 <= k < |r| ==> r[k] == TextAnswer(bank[k].id, bank[k].text, texts[k])
  {
    if bank == [] then [] else [TextAnswer(bank[0].id, bank[0].text, texts[0])] + TextEntries(bank[1..], texts[1..])
  }

  /**
   * The payload: name and phone exactly as typed, then one entry per
   * multiple-choice question followed by one per free-text question.
   */
  function BuildPayload(name: string, phone: string,
                        mcBank: seq<ChoiceQuestion>, mc: seq<string>,
                        saBank: seq<TextQuestion>, sa: seq<string>): (p: Payload)
    requires |mc| == |mcBank| && |sa| == |saBank|
    ensures p.name == name && p.phone == phone
    ensures |p.answers| == |mcBank| + |saBank|
    ensures forall k :: 0 <= k < |mcBank| ==> p.answers[k] == Mc(mcBank[k].id, mcBank[k].text, mc[k])
    ensures forall k :: 0 <= k < |saBank| ==>
      p.answers[|mcBank| + k] == TextAnswer(saBank[k].id, saBank[k].text, sa[k])
  {
    Payload(name, phone, ChoiceEntries(mcBank, mc) + TextEntries(saBank, sa))
  }

  function AnswerId(a: PayloadAnswer): int {
    match a
    case Mc(id, _, _) => id
    case TextAnswer(id, _, _) => id
  }

  function Ids(answers: seq<PayloadAnswer>): seq<int> {
    seq(|answers|, k requires 0 <= k < |answers| => AnswerId(answers[k]))
  }

  function ChoiceIds(bank: seq<ChoiceQuestion>): seq<int> {
    seq(|bank|, k requires 0 <= k < |bank| => bank[k].id)
  }

  function TextIds(bank: seq<TextQuestion>): seq<int> {
    seq(|bank|, k requires 0 <= k < |bank| => bank[k].id)
  }

  /** The payload's ids are the bank's ids, multiple-choice first, in bank order. */
  lemma PayloadIdsFollowBanks(name: string, phone: string,
                              mcBank: seq<ChoiceQuestion>, mc: seq<string>,
                              saBank: seq<TextQuestion>, sa: seq<string>)
    requires |mc| == |mcBank| && |sa| == |saBank|
    ensures Ids(BuildPayload(name, phone, mcBank, mc, saBank, sa).answers) == ChoiceIds(mcBank) + TextIds(saBank)
  {
    var p := BuildPayload(name, phone, mcBank, mc, saBank, sa);
    var l, r := Ids(p.answers), ChoiceIds(mcBank) + TextIds(saBank);
    forall k | 0 <= k < |l| ensures l[k] == r[k] {
      if k >= |mcBank| {
        assert p.answers[|mcBank| + (k - |mcBank|)] == p.answers[k];
      }
    }
  }

  /** Two multiple-choice questions and one free-text question, answered "A", "" and "hello". */
  lemma SmallBankPayload(q1: string, q2: string, q3: string)
    ensures BuildPayload("An", "0900", [ChoiceQuestion(1, q1, []), ChoiceQuestion(2, q2, [])], ["A", ""],
                         [TextQuestion(3, q3)], ["hello"]).answers
         == [Mc(1, q1, "A"), Mc(2, q2, ""), TextAnswer(3, q3, "hello")]
  {
  }

  /** A fresh copy of `src` with slot `i` set to `v`: `const b = [...src]; b[i] = v;`. */
  method CopyWithSlot(src: array<string>, i: nat, v: string) returns (dst: array<string>)
    requires i < src.Length
    ensures fresh(dst)
    ensures dst[..] == src[..][i := v]
  {
    dst := new string[src.Length];
    for k := 0 to src.Length
      invariant forall m :: 0 <= m < k ==> dst[m] == src[m]
    {
      dst[k] := src[k];
    }
    dst[i] := v;
  }

  /** A fresh array of `n` empty answers: `bank.map(() => '')`. */
  method EmptyAnswers(n: nat) returns (a: array<string>)
    ensures fresh(a) && a.Length == n
    ensures forall k :: 0 <= k < n ==> a[k] == ""
  {
    a := new string[n](_ => "");
  }

  class Form {
    const mcBank: seq<ChoiceQuestion>
    const saBank: seq<TextQuestion>
    var name: string
    var phone: string
    var mcAnswers: array<string>
    var saAnswers: array<string>
    var submitting: bool
    var submitted: bool
    var error: Option<string>

    /** One answer slot per question of each bank. */
    ghost predicate Valid()
      reads this
    {
      mcAnswers.Length == |mcBank| && saAnswers.Length == |saBank|
    }

    /** The field values the form starts with and returns to after a successful submission. */
    ghost predicate FieldsAtDefaults()
      reads this, mcAnswers, saAnswers
    {
      && Valid()
      && name == "" && phone == ""
      && (forall k :: 0 <= k < mcAnswers.Length ==> mcAnswers[k] == "")
      && (forall k :: 0 <= k < saAnswers.Length ==> saAnswers[k] == "")
    }

    /** The initial state of the component. */
    constructor (mcBank: seq<ChoiceQuestion>, saBank: seq<TextQuestion>)
      ensures this.mcBank == mcBank && this.saBank == saBank
      ensures FieldsAtDefaults()
      ensures !submitting && !submitted && error == None
    {
      this.mcBank := mcBank;
      this.saBank := saBank;
      name := "";
      phone := "";
      mcAnswers := new string[|mcBank|](_ => "");
      saAnswers := new string[|saBank|](_ => "");
      submitting := false;
      submitted := false;
      error := None;
    }

    /** The name input's `onChange`. */
    method SetName(v: string)
      modifies this
      ensures name == v
      ensures phone == old(phone) && mcAnswers == old(mcAnswers) && saAnswers == old(saAnswers)
      ensures submitting == old(submitting) && submitted == old(submitted) && error == old(error)
    {
      name := v;
    }

    /** The phone input's `onChange`. */
    method SetPhone(v: string)
      modifies this
      ensures phone == v
      ensures name == old(name) && mcAnswers == old(mcAnswers) && saAnswers == old(saAnswers)
      ensures submitting == old(submitting) && submitted == old(submitted) && error == old(error)
    {
      phone := v;
    }

    /**
     * `handleMcChange(i, v)`: a fresh array replaces the old one; slot `i` holds `v`,
     * every other slot is as before, and the old array itself is not written.
     */
    method HandleMcChange(i: nat, v: string)
      requires Valid() && i < mcAnswers.Length
      modifies this
      ensures Valid() && fresh(mcAnswers)
      ensures mcAnswers[..] == old(mcAnswers[..])[i := v]
      ensures old(mcAnswers)[..] == old(mcAnswers[..])
      ensures name == old(name) && phone == old(phone) && saAnswers == old(saAnswers)
      ensures submitting == old(submitting) && submitted == old(submitted) && error == old(error)
    {
      mcAnswers := CopyWithSlot(mcAnswers, i, v);
    }

    /** `handleSaChange(i, v)`: as `HandleMcChange`, for the free-text answers. */
    method HandleSaChange(i: nat, v: string)
      requires Valid() && i < saAnswers.Length
      modifies this
      ensures Valid() && fresh(saAnswers)
      ensures saAnswers[..] == old(saAnswers[..])[i := v]
      ensures old(saAnswers)[..] == old(saAnswers[..])
      ensures name == old(name) && phone == old(phone) && mcAnswers == old(mcAnswers)
      ensures submitting == old(submitting) && submitted == old(submitted) && error == old(error)
    {
      saAnswers := CopyWithSlot(saAnswers, i, v);
    }

    /** The payload for the current field values. */
    function CurrentPayload(): Payload
      reads this, mcAnswers, saAnswers
      requires Valid()
    {
      BuildPayload(name, phone, mcBank, mcAnswers[..], saBank, saAnswers[..])
    }

    /**
     * `handleSubmit` up to the awaited call. A name or phone that is blank after
     * trimming sets the validation message and sends nothing; otherwise the error
     * is cleared, `submitting` is set and the payload (untrimmed values) is returned
     * for sending. No field value changes.
     */
    method BeginSubmit() returns (sent: Option<Payload>)
      requires Valid()
      modifies this
      ensures Valid()
      ensures sent.None? <==> Text.AllSpace(name, Text.IsJsSpace) || Text.AllSpace(phone, Text.IsJsSpace)
      ensures sent.None? ==> error == Some(ValidationMessage) && submitting == old(submitting)
      ensures sent.Some? ==> error == None && submitting && sent.value == CurrentPayload()
      ensures name == old(name) && phone == old(phone)
      ensures mcAnswers == old(mcAnswers) && saAnswers == old(saAnswers) && submitted == old(submitted)
    {
      var blank := Text.IsJsBlank(name) || Text.IsJsBlank(phone);
      error := None;
      if blank {
        error := Some(ValidationMessage);
        return None;
      }
      submitting := true;
      sent := Some(CurrentPayload());
    }

    /**
     * The rest of `handleSubmit`, once the call has settled. Success marks the form
     * submitted and puts every field back to its default; failure shows the fixed
     * message and keeps the fields. Either way `submitting` ends.
     */
    method FinishSubmit(success: bool)
      requires Valid()
      modifies this
      ensures Valid() && !submitting
      ensures success ==> submitted && FieldsAtDefaults() && error == old(error)
                          && fresh(mcAnswers) && fresh(saAnswers)
      ensures !success ==> error == Some(SubmitFailedMessage) && submitted == old(submitted)
                           && name == old(name) && phone == old(phone)
                           && mcAnswers == old(mcAnswers) && saAnswers == old(saAnswers)
    {
      if success {
        submitted := true;
        name := "";
        phone := "";
        mcAnswers := EmptyAnswers(|mcBank|);
        saAnswers := EmptyAnswers(|saBank|);
      } else {
        error := Some(SubmitFailedMessage);
      }
      submitting := false;
    }

    /** `handleSubmit` as a whole, when the fields are not edited while the call is pending. */
    method HandleSubmit(success: bool) returns (sent: Option<Payload>)
      requires Valid()
      modifies this
      ensures Valid() && (sent.Some? ==> !submitting)
      ensures sent.None? <==> Text.AllSpace(old(name), Text.IsJsSpace) || Text.AllSpace(old(phone), Text.IsJsSpace)
      ensures sent.None? ==> error == Some(ValidationMessage) && submitting == old(submitting)
                             && name == old(name) && phone == old(phone)
                             && mcAnswers == old(mcAnswers) && saAnswers == old(saAnswers)
                             && submitted == old(submitted)
      ensures sent.Some? ==> sent.value == BuildPayload(old(name), old(phone), mcBank, old(mcAnswers[..]),
                                                        saBank, old(saAnswers[..]))
      ensures sent.Some? && success ==> submitted && FieldsAtDefaults() && error == None
      ensures sent.Some? && !success ==> error == Some(SubmitFailedMessage) && submitted == old(submitted)
                                         && name == old(name) && phone == old(phone)
                                         && mcAnswers[..] == old(mcAnswers[..])
                                         && saAnswers[..] == old(saAnswers[..])
    {
      sent := BeginSubmit();
      if sent.Some? {
        FinishSubmit(success);
      }
    }

    /** The "Gửi đơn khác" button: back to editing; nothing else changes. */
    method SubmitAnother()
      modifies this
      ensures !submitted
      ensures name == old(name) && phone == old(phone) && mcAnswers == old(mcAnswers)
              && saAnswers == old(saAnswers) && submitting == old(submitting) && error == old(error)
    {
      submitted := false;
    }
  }
}
