/** The FAQ editor: the shop's questions, five ready-made templates, and
    the edit sheet of one entry. */
module FaqPage {
  import opened Common
  import opened Types
  import FaqsRoute

  const DefaultQuestion: string := "新しい質問"
  const DefaultAnswer: string := "回答を入力してください"

  datatype Template = Template(question: string, answer: string)

  /** `faqTemplates`: five questions; the second, third and fifth come
      without an answer. */
  function Templates(): (ts: seq<Template>)
    ensures |ts| == 5
    ensures forall i :: 0 <= i < |ts| ==> ts[i].question != ""
    ensures forall i :: 0 <= i < |ts| ==> (ts[i].answer == "" <==> i == 1 || i == 2 || i == 4)
  {
    [ Template("予約は必要ですか?", "はい、ご予約をおすすめしております。お電話またはLINEからご予約いただけます。"),
      Template("駐車場はありますか?", ""),
      Template("クレジットカードは使えますか?", ""),
      Template("当日予約はできますか?", "空きがあれば可能です。お気軽にお問い合わせください。"),
      Template("キャンセル料はかかりますか?", "") ]
  }

  /** The body `addFaq(question, answer)` posts: an empty question or
      answer is replaced by its default. */
  function AddRequest(shopId: string, question: string, answer: string): (b: FaqsRoute.FaqBody)
    ensures b.id.None? && b.shopId == Some(shopId)
    ensures b.question == Some(if question == "" then DefaultQuestion else question)
    ensures b.answer == Some(if answer == "" then DefaultAnswer else answer)
  {
    FaqsRoute.FaqBody(None, Some(shopId), Some(OrDefault(question, DefaultQuestion)), Some(OrDefault(answer, DefaultAnswer)))
  }

  /** `JSON.stringify(editingFaq)` as the route reads it. */
  function EditRequest(f: Faq): (b: FaqsRoute.FaqBody)
    ensures b.id == Some(f.id) && b.shopId == Some(f.shopId)
    ensures b.question == Some(f.question) && b.answer == Some(f.answer)
  {
    FaqsRoute.FaqBody(Some(f.id), Some(f.shopId), Some(f.question), Some(f.answer))
  }

  class FaqEditor {
    var shopId: string
    var faqs: seq<Faq>
    var editingFaq: Option<Faq>
    var showTemplates: bool

    constructor()
      ensures shopId == "" && faqs == [] && editingFaq.None? && !showTemplates
    {
      shopId, faqs, editingFaq, showTemplates := "", [], None, false;
    }

    /** `fetchData`, given the first shop's id and the answer of
        `GET /api/faqs?shopId=`. */
    method Load(firstShopId: Option<string>, view: Response<seq<Faq>>)
      modifies this`shopId, this`faqs
      ensures shopId == (if firstShopId.Some? then firstShopId.value else old(shopId))
      ensures faqs == (if firstShopId.Some? && view.Ok? then view.data else old(faqs))
    {
      if firstShopId.Some? {
        shopId := firstShopId.value;
        if view.Ok? {
          faqs := view.data;
        }
      }
    }

    /** The "from a template" button opens and closes the template panel. */
    method ToggleTemplates()
      modifies this`showTemplates
      ensures showTemplates == !old(showTemplates)
    {
      showTemplates := !showTemplates;
    }

    /** `addFaq(question, answer)`: on success the entry is appended and the
        template panel closes; the sheet opens only for a free-form add (no
        question given). */
    method AddFaq(question: string, answer: string, resp: Response<Faq>) returns (sent: FaqsRoute.FaqBody)
      modifies this`faqs, this`editingFaq, this`showTemplates
      ensures sent == AddRequest(shopId, question, answer)
      ensures resp.Ok? ==> faqs == old(faqs) + [resp.data] && !showTemplates
      ensures resp.Ok? && question == "" ==> editingFaq == Some(resp.data)
      ensures resp.Ok? && question != "" ==> editingFaq == old(editingFaq)
      ensures !resp.Ok? ==> faqs == old(faqs) && editingFaq == old(editingFaq) && showTemplates == old(showTemplates)
    {
      sent := AddRequest(shopId, question, answer);
      if resp.Ok? {
        faqs := faqs + [resp.data];
        if question == "" {
          editingFaq := Some(resp.data);
        }
        showTemplates := false;
      }
    }

    /** A template button: `addFaq(template.question, template.answer)`. */
    method PickTemplate(i: nat, resp: Response<Faq>) returns (sent: FaqsRoute.FaqBody)
      requires i < |Templates()|
      modifies this`faqs, this`editingFaq, this`showTemplates
      ensures sent == AddRequest(shopId, Templates()[i].question, Templates()[i].answer)
      ensures resp.Ok? ==> faqs == old(faqs) + [resp.data] && !showTemplates
      ensures editingFaq == old(editingFaq)
      ensures !resp.Ok? ==> faqs == old(faqs) && showTemplates == old(showTemplates)
    {
      var t := Templates()[i];
      sent := AddFaq(t.question, t.answer, resp);
    }

    /** `updateFaq`: sends the entry being edited; on success the entry with
        its id becomes the route's answer and the sheet closes. */
    method UpdateFaq(resp: Response<Faq>) returns (sent: Option<FaqsRoute.FaqBody>)
      modifies this`faqs, this`editingFaq
      ensures old(editingFaq).None? <==> sent.None?
      ensures sent.Some? ==> sent.value == EditRequest(old(editingFaq).value)
      ensures sent.Some? && resp.Ok? ==>
        faqs == ReplaceByKey(old(faqs), FaqsRoute.FaqId, old(editingFaq).value.id, resp.data) && editingFaq.None?
      ensures sent.None? || !resp.Ok? ==> faqs == old(faqs) && editingFaq == old(editingFaq)
    {
      if editingFaq.None? {
        return None;
      }
      var f := editingFaq.value;
      sent := Some(EditRequest(f));
      if resp.Ok? {
        faqs := ReplaceByKey(faqs, FaqsRoute.FaqId, f.id, resp.data);
        editingFaq := None;
      }
    }

    /** `deleteFaq(id)`: after confirmation, only that entry leaves. */
    method DeleteFaq(id: string, confirmed: bool)
      modifies this`faqs
      ensures faqs == if confirmed then Filter(old(faqs), (f: Faq) => f.id != id) else old(faqs)
    {
      if confirmed {
        faqs := Filter(faqs, (f: Faq) => f.id != id);
      }
    }
  }

  /** A template is stored with its own question and, when it has none of
      its own, the default answer; an entry added from the page never has
      an empty question or answer. */
  lemma TemplateStored(rows: seq<Faq>, shopId: string, i: nat, newId: string)
    requires i < |Templates()|
    requires FaqsRoute.Create(rows, AddRequest(shopId, Templates()[i].question, Templates()[i].answer), newId).1.Ok?
    ensures var f := FaqsRoute.Create(rows, AddRequest(shopId, Templates()[i].question, Templates()[i].answer), newId).1.data;
      f.question == Templates()[i].question && f.answer != "" &&
      (f.answer == DefaultAnswer <==> i == 1 || i == 2 || i == 4)
  {
  }

  /** Every add is accepted by the route when its id is fresh: the defaults
      fill both NOT NULL columns. */
  lemma AddAcceptedWithFreshId(rows: seq<Faq>, shopId: string, question: string, answer: string, newId: string)
    requires newId !in Ids(rows, FaqsRoute.FaqId)
    ensures var r := FaqsRoute.Create(rows, AddRequest(shopId, question, answer), newId);
      r.1.Ok? && r.1.data.question != "" && r.1.data.answer != ""
  {
  }

  /** When the page's list is the table, replacing the edited entry by the
      route's answer gives exactly the table after the `PUT`. */
  lemma LocalUpdateMatchesRoute(rows: seq<Faq>, f: Faq)
    requires UniqueIds(rows, FaqsRoute.FaqId)
    requires FaqsRoute.Update(rows, EditRequest(f)).1.Ok?
    ensures var r := FaqsRoute.Update(rows, EditRequest(f));
      ReplaceByKey(rows, FaqsRoute.FaqId, f.id, r.1.data) == r.0
  {
    var r := FaqsRoute.Update(rows, EditRequest(f));
    ReplaceByAnswer(rows, r.0, FaqsRoute.FaqId, f.id, r.1.data);
  }
}
