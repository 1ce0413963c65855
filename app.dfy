/** `app.py`, `get_answer`: the `POST /answer` handler. It rejects a request without a
    question, hands the question to the answering system, and shapes its result into the
    response, splitting the references by type into articles (with a url) and tickets. */
module App {
  import opened Common
  import opened Text

  /** A JSON value held by a reference. */
  datatype Value = Str(s: string) | Number(x: real)

  /** A reference of the answering system's result: a JSON object. */
  type Ref = map<string, Value>

  /** What `answer_question` returns: a JSON object that should carry `answer` and
      `references`. */
  datatype Answer = Answer(answer: Option<string>, references: Option<seq<Ref>>)

  /** An entry of the response's `articles` list. */
  datatype ArticleRef = ArticleRef(id: Value, title: Value, url: Value, relevance: Value)

  /** An entry of the response's `tickets` list. */
  datatype TicketRef = TicketRef(id: Value, title: Value, relevance: Value)

  /** The JSON body of a response. */
  datatype Body<Q> =
    | Rejected(error: string)
    | Success(question: Q, answer: string, articles: seq<ArticleRef>, tickets: seq<TicketRef>)
    | Failure(message: string)

  datatype Response<Q> = Response(code: nat, body: Body<Q>)

  const NoQuestion := "No question provided"

  /** `str(KeyError(key))`: the key in single quotes. */
  function KeyError(key: string): string {
    "'" + key + "'"
  }

  /** The article entry of a reference: `id`, `title` and `relevance` are read in that
      order and each raises when missing; `url` defaults to the empty string. */
  function ArticleView(ref: Ref): (r: Result<ArticleRef>)
    ensures r.Ok? <==> "id" in ref && "title" in ref && "relevance" in ref
    ensures r.Err? ==> r.message == KeyError(if "id" !in ref then "id" else if "title" !in ref then "title" else "relevance")
    ensures r.Ok? ==> r.value.id == ref["id"] && r.value.title == ref["title"] && r.value.relevance == ref["relevance"]
    ensures r.Ok? ==> r.value.url == (if "url" in ref then ref["url"] else Str(""))
  {
    if "id" !in ref then Err(KeyError("id"))
    else if "title" !in ref then Err(KeyError("title"))
    else
      var url := if "url" in ref then ref["url"] else Str("");
      if "relevance" !in ref then Err(KeyError("relevance"))
      else Ok(ArticleRef(ref["id"], ref["title"], url, ref["relevance"]))
  }

  /** The ticket entry of a reference: `id`, `title` and `relevance`, each raising when
      missing; a ticket entry has no url. */
  function TicketView(ref: Ref): (r: Result<TicketRef>)
    ensures r.Ok? <==> "id" in ref && "title" in ref && "relevance" in ref
    ensures r.Err? ==> r.message == KeyError(if "id" !in ref then "id" else if "title" !in ref then "title" else "relevance")
    ensures r.Ok? ==> r.value == TicketRef(ref["id"], ref["title"], ref["relevance"])
  {
    if "id" !in ref then Err(KeyError("id"))
    else if "title" !in ref then Err(KeyError("title"))
    else if "relevance" !in ref then Err(KeyError("relevance"))
    else Ok(TicketRef(ref["id"], ref["title"], ref["relevance"]))
  }

  /** The filter of the comprehensions: the reference's `type` is `tag`. */
  function OfType(tag: string): Ref -> bool {
    ref => "type" in ref && ref["type"] == Str(tag)
  }

  /** `[view(ref) for ref in refs if ref['type'] == tag]`, evaluated from the first
      reference on: a reference without `type`, or a selected one whose view raises,
      stops the comprehension with that error. */
  function Comprehension<T>(refs: seq<Ref>, tag: string, view: Ref -> Result<T>): (r: Result<seq<T>>)
    ensures r.Ok? ==> |r.value| <= |refs|
    // the error is a missing `type` or the error of a reference's view
    ensures r.Err? ==> r.message == KeyError("type") || exists k :: 0 <= k < |refs| && view(refs[k]) == Err(r.message)
  {
    if refs == [] then Ok([])
    else if "type" !in refs[0] then Err(KeyError("type"))
    else if refs[0]["type"] != Str(tag) then Comprehension(refs[1..], tag, view)
    else
      match view(refs[0])
      case Err(e) => Err(e)
      case Ok(v) =>
        match Comprehension(refs[1..], tag, view)
        case Err(e) => Err(e)
        case Ok(vs) => Ok([v] + vs)
  }

  /** The comprehension succeeds exactly when every reference has a `type` and every
      reference of type `tag` has a view. */
  lemma {:induction false} ComprehensionOk<T>(refs: seq<Ref>, tag: string, view: Ref -> Result<T>)
    ensures Comprehension(refs, tag, view).Ok? <==>
      forall k :: 0 <= k < |refs| ==> "type" in refs[k] && (refs[k]["type"] == Str(tag) ==> view(refs[k]).Ok?)
  {
    if refs != [] {
      ComprehensionOk(refs[1..], tag, view);
      assert forall k :: 1 <= k < |refs| ==> refs[k] == refs[1..][k - 1];
    }
  }

  /** A successful comprehension lists the views of exactly the references of type `tag`,
      in input order. */
  lemma {:induction false} ComprehensionExact<T>(refs: seq<Ref>, tag: string, view: Ref -> Result<T>)
    requires Comprehension(refs, tag, view).Ok?
    ensures var vs, sel := Comprehension(refs, tag, view).value, Select(refs, OfType(tag));
      |vs| == |sel| && forall j :: 0 <= j < |sel| ==> view(sel[j]) == Ok(vs[j])
  {
    if refs != [] {
      var keep := OfType(tag);
      var rest := Comprehension(refs[1..], tag, view);
      assert refs == [refs[0]] + refs[1..];
      SelectCons(refs[0], refs[1..], keep);
      ComprehensionExact(refs[1..], tag, view);
      if keep(refs[0]) {
        var v := view(refs[0]).value;
        assert Comprehension(refs, tag, view) == Ok([v] + rest.value);
        assert Select(refs, keep) == [refs[0]] + Select(refs[1..], keep);
      } else {
        assert Comprehension(refs, tag, view) == rest;
        assert Select(refs, keep) == Select(refs[1..], keep);
      }
    }
  }

  /** A reference whose type is not `tag` may be removed without changing the
      comprehension. */
  lemma {:induction false} ComprehensionSkips<T>(refs: seq<Ref>, k: nat, tag: string, view: Ref -> Result<T>)
    requires k < |refs| && "type" in refs[k] && refs[k]["type"] != Str(tag)
    ensures Comprehension(refs[..k] + refs[k + 1..], tag, view) == Comprehension(refs, tag, view)
  {
    if k > 0 {
      ComprehensionSkips(refs[1..], k - 1, tag, view);
      assert refs[..k] + refs[k + 1..] == [refs[0]] + (refs[1..][..k - 1] + refs[1..][k..]);
    } else {
      assert refs[..k] + refs[k + 1..] == refs[1..];
    }
  }

  /** The response to a result of `answer_question`: the answer is read and stripped
      first, then the articles and then the tickets comprehension runs; the first missing
      key becomes a 500. */
  function Shape<Q>(question: Q, result: Answer): (resp: Response<Q>)
    ensures resp.code == 200 || (resp.code == 500 && resp.body.Failure?)
    // `answer` is read before `references`
    ensures result.answer.None? ==> resp == Response(500, Failure(KeyError("answer")))
    ensures result.answer.Some? && result.references.None? ==> resp == Response(500, Failure(KeyError("references")))
    ensures resp.code == 200 ==>
      && resp.body.Success? && resp.body.question == question
      && result.answer.Some? && resp.body.answer == Strip(result.answer.value)
  {
    if result.answer.None? then Response(500, Failure(KeyError("answer")))
    else if result.references.None? then Response(500, Failure(KeyError("references")))
    else
      var refs := result.references.value;
      match Comprehension(refs, "article", ArticleView)
      case Err(e) => Response(500, Failure(e))
      case Ok(articles) =>
        match Comprehension(refs, "ticket", TicketView)
        case Err(e) => Response(500, Failure(e))
        case Ok(tickets) => Response(200, Success(question, Strip(result.answer.value), articles, tickets))
  }

  /** The JSON body of a request, as Flask decodes it: `Object` field values are left
      abstract as `Q`, the type of the question handed to the answering system. */
  datatype Json<Q> =
    | Null
    | Boolean(b: bool)
    | Int(i: int)
    | Float(x: real)
    | Text(s: string)
    | Array(items: seq<Json<Q>>)
    | Object(fields: map<string, Q>)

  /** Python's truthiness of a decoded body, the `not data` of the guard. */
  function Truthy<Q>(v: Json<Q>): (t: bool)
    // falsy: None, False, zero, "", [] and {}
    ensures v.Null? ==> !t
    ensures v.Boolean? ==> (t <==> v.b)
    ensures v.Int? ==> (t <==> v.i != 0)
    ensures v.Float? ==> (t <==> v.x != 0.0)
    ensures v.Text? ==> (t <==> v.s != "")
    ensures v.Array? ==> (t <==> v.items != [])
    ensures v.Object? ==> (t <==> v.fields != map[])
  {
    match v
    case Null => false
    case Boolean(b) => b
    case Int(i) => i != 0
    case Float(x) => x != 0.0
    case Text(s) => s != ""
    case Array(items) => items != []
    case Object(fields) => fields != map[]
  }

  /** The Python type name of a decoded body. */
  function TypeName<Q>(v: Json<Q>): string {
    match v
    case Null => "NoneType"
    case Boolean(_) => "bool"
    case Int(_) => "int"
    case Float(_) => "float"
    case Text(_) => "str"
    case Array(_) => "list"
    case Object(_) => "dict"
  }

  /** `key in v`: a key of an object, a substring of a string, an element of a list;
      on any other value it raises `TypeError`. */
  function Contains<Q>(v: Json<Q>, key: string): (r: Result<bool>)
    ensures v.Object? ==> r == Ok(key in v.fields)
    ensures v.Text? ==> r == Ok(Occurs(key, v.s))
    ensures v.Array? ==> (r == Ok(true) <==> exists k :: 0 <= k < |v.items| && v.items[k] == Text(key))
    ensures r.Err? <==> v.Null? || v.Boolean? || v.Int? || v.Float?
    ensures r.Err? ==> r.message == "argument of type '" + TypeName(v) + "' is not iterable"
  {
    match v
    case Object(fields) => Ok(key in fields)
    case Text(s) => Ok(Occurs(key, s))
    case Array(items) => Ok(exists k :: 0 <= k < |items| && items[k].Text? && items[k].s == key)
    case _ => Err("argument of type '" + TypeName(v) + "' is not iterable")
  }

  /** `v[key]` with a string `key`: an object's field, or the `KeyError` of a missing one;
      a string or a list cannot be indexed by a string, and nothing else can be indexed. */
  function Subscript<Q>(v: Json<Q>, key: string): (r: Result<Q>)
    ensures r.Ok? <==> v.Object? && key in v.fields
    ensures r.Ok? ==> r.value == v.fields[key]
    ensures v.Object? && key !in v.fields ==> r == Err(KeyError(key))
    ensures v.Text? ==> r == Err("string indices must be integers, not 'str'")
    ensures v.Array? ==> r == Err("list indices must be integers or slices, not str")
  {
    match v
    case Object(fields) => if key in fields then Ok(fields[key]) else Err(KeyError(key))
    case Text(_) => Err("string indices must be integers, not 'str'")
    case Array(_) => Err("list indices must be integers or slices, not str")
    case _ => Err("'" + TypeName(v) + "' object is not subscriptable")
  }

  /** `get_answer()`: `data` is the request's decoded JSON body (absent when there is none)
      and `answerQuestion` the answering system, whose exceptions are `Err` results. Every
      exception raised inside the handler, including those of the guard and of
      `data['question']`, becomes a 500 carrying its message. */
  function GetAnswer<Q>(data: Option<Json<Q>>, answerQuestion: Q -> Result<Answer>): (resp: Response<Q>)
    // the guard: a missing or falsy body, or one that does not contain "question"
    ensures resp.code == 400 <==>
      data.None? || !Truthy(data.value) || Contains(data.value, "question") == Ok(false)
    ensures resp.code == 400 ==> resp.body == Rejected(NoQuestion)
    ensures resp.code == 200 || resp.code == 400 || (resp.code == 500 && resp.body.Failure?)
    // on an object the guard is exactly a missing (or empty-object) question
    ensures data.Some? && data.value.Object? ==> (resp.code == 400 <==> "question" !in data.value.fields)
    // only an object carries a question to the answering system
    ensures resp.code == 200 ==>
      && data.Some? && data.value.Object? && "question" in data.value.fields
      && resp.body.Success? && resp.body.question == data.value.fields["question"]
    // a 200 is the shaped success of the answering system's result
    ensures resp.code == 200 ==>
      var q := data.value.fields["question"];
      answerQuestion(q).Ok? && resp == Shape(q, answerQuestion(q).value)
    // a truthy number or boolean makes the guard raise
    ensures data.Some? && Truthy(data.value) && Contains(data.value, "question").Err? ==>
      resp == Response(500, Failure(Contains(data.value, "question").message))
    // a string or list that contains "question" passes the guard and then cannot be indexed
    ensures data.Some? && (data.value.Text? || data.value.Array?) && Contains(data.value, "question") == Ok(true) ==>
      resp == Response(500, Failure(Subscript(data.value, "question").message))
    ensures data.Some? && data.value.Object? && "question" in data.value.fields ==>
      var answered := answerQuestion(data.value.fields["question"]);
      answered.Err? ==> resp == Response(500, Failure(answered.message))
  {
    if data.None? || !Truthy(data.value) then Response(400, Rejected(NoQuestion))
    else
      match Contains(data.value, "question")
      case Err(e) => Response(500, Failure(e))
      case Ok(present) =>
        if !present then Response(400, Rejected(NoQuestion))
        else
          match Subscript(data.value, "question")
          case Err(e) => Response(500, Failure(e))
          case Ok(question) =>
            match answerQuestion(question)
            case Err(e) => Response(500, Failure(e))
            case Ok(result) => Shape(question, result)
  }

  /** A body that is the string "question" passes the guard, since the string contains
      itself, and then fails at `data['question']`. */
  lemma StringBodyFails<Q>(answerQuestion: Q -> Result<Answer>)
    ensures GetAnswer(Some(Text("question")), answerQuestion)
         == Response(500, Failure("string indices must be integers, not 'str'"))
  {
    assert OccursAt("question", "question", 0);
  }

  /** The request is answered with 200 exactly when it carries a question, the answering
      system returns, its result has `answer` and `references`, every reference has a
      `type`, and every article or ticket reference has `id`, `title` and `relevance`. */
  lemma SucceedsIff<Q>(data: Option<Json<Q>>, answerQuestion: Q -> Result<Answer>)
    ensures GetAnswer(data, answerQuestion).code == 200 <==>
      && data.Some? && data.value.Object? && "question" in data.value.fields
      && var r := answerQuestion(data.value.fields["question"]);
      && r.Ok? && r.value.answer.Some? && r.value.references.Some?
      && var refs := r.value.references.value;
      forall k :: 0 <= k < |refs| ==>
        && "type" in refs[k]
        && (refs[k]["type"] == Str("article") || refs[k]["type"] == Str("ticket") ==>
              "id" in refs[k] && "title" in refs[k] && "relevance" in refs[k])
  {
    if data.Some? && data.value.Object? && "question" in data.value.fields {
      var r := answerQuestion(data.value.fields["question"]);
      if r.Ok? && r.value.references.Some? {
        var refs := r.value.references.value;
        ComprehensionOk(refs, "article", ArticleView);
        ComprehensionOk(refs, "ticket", TicketView);
      }
    }
  }

  /** A successful response carries the stripped answer, whose ends are not whitespace,
      the views of exactly the article references and of exactly the ticket references,
      each in input order; an article entry's url is the reference's, or empty. */
  lemma SuccessShape<Q>(question: Q, result: Answer)
    requires Shape(question, result).code == 200
    ensures var body := Shape(question, result).body;
      && body.Success? && body.question == question
      && body.answer == Strip(result.answer.value)
      && (body.answer != [] ==> !IsSpace(body.answer[0]) && !IsSpace(body.answer[|body.answer| - 1]))
      && var arts, tics := Select(result.references.value, OfType("article")), Select(result.references.value, OfType("ticket"));
      && |body.articles| == |arts| && |body.tickets| == |tics|
      && (forall j :: 0 <= j < |arts| ==> ArticleView(arts[j]) == Ok(body.articles[j]))
      && (forall j :: 0 <= j < |tics| ==> TicketView(tics[j]) == Ok(body.tickets[j]))
  {
    var refs := result.references.value;
    ComprehensionExact(refs, "article", ArticleView);
    ComprehensionExact(refs, "ticket", TicketView);
  }

  /** A reference of any other type, such as `internal` or `drafts`, appears in neither
      list: removing it leaves the response as it was. */
  lemma OtherTypesIgnored<Q>(question: Q, result: Answer, k: nat)
    requires result.references.Some? && k < |result.references.value|
    requires var ref := result.references.value[k];
      "type" in ref && ref["type"] != Str("article") && ref["type"] != Str("ticket")
    ensures var refs := result.references.value;
      Shape(question, result.(references := Some(refs[..k] + refs[k + 1..]))) == Shape(question, result)
  {
    var refs := result.references.value;
    ComprehensionSkips(refs, k, "article", ArticleView);
    ComprehensionSkips(refs, k, "ticket", TicketView);
  }
}
