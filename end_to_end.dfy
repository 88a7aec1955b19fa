/** What follows when the front end's components meet the API's answers: the dashboard figures
    computed from the churn tally, the chat guard in the browser against the stripping on the
    server, the customer search against the lookup, and the prediction record against the
    model's features. */
module EndToEnd {
  import opened Wrappers
  import opened Text
  import opened CustomerRecord
  import Backend
  import Stats = DashboardStats
  import Chat = Chatbot
  import Profile = CustomerProfile
  import Predict = ChurnPrediction

  // ---------------------------------------------------------------------------------------------
  // Dashboard

  /** The dashboard payload as the browser receives the API's answer: an error dictionary has none
      of the dashboard members. The churn rate arrives as a number. */
  function Received(reply: Backend.DashboardReply): Stats.DashboardData
  {
    match reply
    case ErrorDict(_) => Stats.DashboardData(None, None, None, None, None, None, None)
    case Figures(s) =>
      Stats.DashboardData(Some(s.totalCustomers as real), Some(Stats.RateNumber(s.churnRate)),
                          Some(s.avgTenure), Some(s.avgMonthlyCharge),
                          Some(Stats.Distribution(Some(s.churned as real), Some(s.retained as real))),
                          None, None)
  }

  /** The pie drawn from a summary has the retained customers, who are the active ones, then the
      churned customers, and its two slices add up to the total. */
  lemma PieMatchesTally(load: Option<Backend.ChurnTable>)
    requires Backend.DashboardData(load).Figures?
    ensures var s := Backend.DashboardData(load).summary;
      var slices := Stats.PrepareChurnDistribution(Some(Received(Backend.DashboardData(load))));
      |slices| == 2 && slices[0] == ("Retained", s.activeCustomers as real)
      && slices[1] == ("Churned", s.churned as real)
      && slices[0].1 + slices[1].1 == s.totalCustomers as real
  {
    Backend.DashboardTally(load);
  }

  /** The truthiness test on the rate: a data set in which nobody churned has a churn rate of 0,
      and the dashboard shows it as "not available" rather than as 0 percent. A data set with a
      churned customer shows the churned share. */
  lemma ZeroChurnRateNotShown(load: Option<Backend.ChurnTable>)
    requires Backend.DashboardData(load).Figures?
    ensures var s := Backend.DashboardData(load).summary;
      var card := Stats.SummaryCards(Some(Received(Backend.DashboardData(load))), false)[1];
      (s.churned == 0 ==> card == Stats.NotAvailable)
      && (s.churned > 0 ==> card.Shown? && card.value == Stats.Finite(s.churned as real / s.totalCustomers as real))
  {
    var s := Backend.DashboardData(load).summary;
    Backend.DashboardTally(load);
    if s.churned > 0 {
      PositiveShare(s.churned, s.totalCustomers);
    }
  }

  lemma PositiveShare(churned: nat, total: nat)
    requires 0 < churned <= total
    ensures churned as real / total as real != 0.0
  {
    assert churned as real / total as real * total as real == churned as real;
  }

  /** An error dictionary leaves every figure unavailable and the pie empty, and the two charts
      fall back to their built-in data. */
  lemma ErrorDictShowsNothing(load: Option<Backend.ChurnTable>)
    requires Backend.DashboardData(load).ErrorDict?
    ensures var data := Some(Received(Backend.DashboardData(load)));
      (forall i :: 0 <= i < 4 ==> Stats.SummaryCards(data, false)[i] == Stats.NotAvailable)
      && Stats.DistributionChart(data, false) == Stats.PieUnavailable
      && Stats.ChurnTrendData(data) == Stats.FallbackTrend
      && Stats.ChurnReasonsData(data) == Stats.FallbackReasons
  {
  }

  // ---------------------------------------------------------------------------------------------
  // Chat

  /** How the browser meets the chat endpoint's answer: an error status is a response that is not
      ok; a body is read for its `response` member. */
  function Delivered(r: Backend.Response<string>): Chat.FetchOutcome
  {
    match r
    case HttpError(_, _) => Chat.NotOk
    case Ok(body) => Chat.Body(Some(body))
  }

  /** The reply the user sees for a message that the browser sends. */
  function ChatExchange(message: string, retrieverReady: bool,
                        retrieve: string -> Option<seq<string>>): string
  {
    var q := TrimJs(message);
    Chat.BotReply(q, Delivered(Backend.ChatReply(q, retrieverReady, retrieve)))
  }

  /** The browser and the server disagree on what is blank. An information separator is not
      whitespace to `trim()`, so the browser sends it; it is whitespace to `strip()`, so the server
      refuses it with 400 and the user reads the server-failure reply. */
  lemma SeparatorPassesGuardButIsRefused(retrieverReady: bool, retrieve: string -> Option<seq<string>>)
    ensures TrimJs("\U{001C}") == "\U{001C}"
    ensures Backend.ChatReply("\U{001C}", retrieverReady, retrieve) == Backend.HttpError(400, "Query cannot be empty.")
    ensures ChatExchange("\U{001C}", retrieverReady, retrieve) == Chat.ServerFailure
  {
    var m := "\U{001C}";
    assert m[0] !in JsWhitespace;
    TrimByOfTrimmed(m, JsWhitespace);
    assert m[0] in PyWhitespace;
  }

  /** A message the browser sends and the server answers from a document is shown as that
      document, or the extraction from it when the query names a keyword. */
  lemma DocumentReply(message: string, retrieve: string -> Option<seq<string>>)
    requires StripPy(TrimJs(message)) != []
    requires retrieve(StripPy(TrimJs(message))).Some? && retrieve(StripPy(TrimJs(message))).value != []
    requires retrieve(StripPy(TrimJs(message))).value[0] != ""
    ensures ChatExchange(message, true, retrieve)
      == Chat.Extract(TrimJs(message), retrieve(StripPy(TrimJs(message))).value[0])
  {
    DocumentReplyFor(TrimJs(message), retrieve);
  }

  /** The same exchange for the query `q` the browser sends. */
  lemma DocumentReplyFor(q: string, retrieve: string -> Option<seq<string>>)
    requires StripPy(q) != []
    requires retrieve(StripPy(q)).Some? && retrieve(StripPy(q)).value != []
    requires retrieve(StripPy(q)).value[0] != ""
    ensures Chat.BotReply(q, Delivered(Backend.ChatReply(q, true, retrieve)))
      == Chat.Extract(q, retrieve(StripPy(q)).value[0])
  {
    var doc := retrieve(StripPy(q)).value[0];
    assert Backend.ChatReply(q, true, retrieve) == Backend.Ok(doc);
    assert Chat.BotReply(q, Chat.Body(Some(doc))) == Chat.Extract(q, doc);
  }

  // ---------------------------------------------------------------------------------------------
  // Customer search

  /** How the profile view meets the lookup's answer: the record, or, for an error status, the
      null that the service wrapper returns in place of the rejection. */
  function Looked(r: Backend.Response<Customer>): Profile.LookupOutcome
  {
    match r
    case Ok(c) => Profile.Found(c)
    case HttpError(_, _) => Profile.NullData
  }

  /** The view sends the ID as typed and the server compares it exactly: an ID typed with a
      leading space finds nobody in data whose IDs do not start with one, so the view shows no
      customer and no retention offers; the view receives null rather than a rejection, which
      `FinishSearch` answers without a toast. */
  lemma PaddedIdFindsNobody(rows: seq<Customer>, id: string)
    requires id != [] && id[0] == ' '
    requires forall j :: 0 <= j < |rows| ==> rows[j].customerID == [] || rows[j].customerID[0] != ' '
    ensures Backend.CustomerProfile(rows, id) == Backend.HttpError(404, "Customer not found")
    ensures Looked(Backend.CustomerProfile(rows, id)) == Profile.NullData
    ensures Profile.Loaded(Looked(Backend.CustomerProfile(rows, id))) == None
    ensures !Profile.ShowRetention(Profile.Loaded(Looked(Backend.CustomerProfile(rows, id))))
  {
    Backend.CustomerProfileCases(rows, id);
  }

  /** A search that finds a record shows retention offers exactly when the first record with that
      ID has churned. */
  lemma OffersFollowRecord(rows: seq<Customer>, id: string)
    ensures Profile.ShowRetention(Profile.Loaded(Looked(Backend.CustomerProfile(rows, id))))
      <==> exists k :: (0 <= k < |rows| && rows[k].customerID == id && rows[k].churn == "Yes"
                        && forall j :: 0 <= j < k ==> rows[j].customerID != id)
  {
    Backend.CustomerProfileCases(rows, id);
    var k := Backend.FirstCustomer(rows, id, 0);
    forall k' | 0 <= k' < |rows| && rows[k'].customerID == id && forall j :: 0 <= j < k' ==> rows[j].customerID != id
      ensures k' == k
    {
    }
  }

  // ---------------------------------------------------------------------------------------------
  // Profile against the prediction form

  /** The prediction form filled in from a customer's record. */
  function FormOf(c: Customer): Predict.Form
  {
    Predict.Form(c.seniorCitizen, c.partner, c.dependents, c.tenure, c.internetService,
                 c.onlineSecurity, c.onlineBackup, c.deviceProtection, c.techSupport,
                 c.streamingTV, c.streamingMovies, c.contract, c.paperlessBilling,
                 c.paymentMethod, c.monthlyCharges, c.totalCharges)
  }

  /** The profile and the encoder agree on the internet service: it is shown as active exactly
      when the record's form has a 0 for `InternetService_No`. */
  lemma InternetStatusMatchesEncoding(c: Customer)
    ensures Profile.ServiceStatuses(Some(c))[2].status
      <==> Predict.Lookup(Predict.Encode(FormOf(c)), "InternetService_No") == Some(Predict.Indicator(0))
  {
    Profile.ServiceStatusesShape(Some(c));
    Predict.AddOnIndicators(FormOf(c), Predict.AddOnGroups[0]);
  }

  /** The profile and the encoder agree on each add-on: the profile shows the service as active
      exactly when the encoding of the record's form has a 1 for its `_Yes` key. */
  lemma AddOnStatusMatchesEncoding(c: Customer, i: nat)
    requires 3 <= i < 9
    ensures Profile.ServiceStatuses(Some(c))[i].status
      <==> Predict.Lookup(Predict.Encode(FormOf(c)), Predict.AddOnGroups[i - 3][2].key) == Some(Predict.Indicator(1))
  {
    var group := Predict.AddOnGroups[i - 3];
    Predict.AddOnIndicators(FormOf(c), group);
    Profile.ServiceStatusesShape(Some(c));
    AddOnColumn(c, i);
  }

  /** The add-on groups of the encoder follow the add-on statuses of the profile, one for one. */
  lemma AddOnColumn(c: Customer, i: nat)
    requires 3 <= i < 9
    ensures Predict.Get(FormOf(c), Predict.AddOnGroups[i - 3][0].field) == Profile.ServiceColumn(c, i)
  {
    if i == 3 {
      assert Predict.AddOnGroups[0][0].field == Predict.OnlineSecurity;
    } else if i == 4 {
      assert Predict.AddOnGroups[1][0].field == Predict.OnlineBackup;
    } else if i == 5 {
      assert Predict.AddOnGroups[2][0].field == Predict.DeviceProtection;
    } else if i == 6 {
      assert Predict.AddOnGroups[3][0].field == Predict.TechSupport;
    } else if i == 7 {
      assert Predict.AddOnGroups[4][0].field == Predict.StreamingTV;
    } else {
      assert Predict.AddOnGroups[5][0].field == Predict.StreamingMovies;
    }
  }

  // ---------------------------------------------------------------------------------------------
  // Prediction record against the model's features

  /** The number the server reads for one entry of the record: an indicator as it is, a numeric
      field as `parse` reads its text. */
  function Numeric(v: Predict.FeatureValue, parse: string -> real): real
  {
    match v
    case Indicator(b) => b as real
    case Passthrough(t) => parse(t)
  }

  /** The request's `features` as a dictionary. Here an earlier entry wins over a later one with
      the same key, as `Lookup` reads the record, where a JavaScript object literal keeps the later
      one; the two agree on the form's record because its keys are distinct
      (`ChurnPrediction.WireKeysDistinct`). */
  function RequestBody(vec: Predict.FeatureVector, parse: string -> real): map<string, real>
  {
    if vec == [] then map[] else RequestBody(vec[1..], parse)[vec[0].0 := Numeric(vec[0].1, parse)]
  }

  /** The dictionary holds a key exactly when the record does, with the record's value. */
  lemma {:induction false} RequestBodyLookup(vec: Predict.FeatureVector, parse: string -> real, key: string)
    ensures key in RequestBody(vec, parse) <==> Predict.Lookup(vec, key).Some?
    ensures key in RequestBody(vec, parse) ==>
      RequestBody(vec, parse)[key] == Numeric(Predict.Lookup(vec, key).value, parse)
  {
    if vec != [] && vec[0].0 != key {
      RequestBodyLookup(vec[1..], parse, key);
    }
  }

  /** A model feature that is one of the form's indicators receives that indicator, as 1.0 or 0.0. */
  lemma AlignedIndicator(form: Predict.Form, modelFeatures: seq<string>, parse: string -> real,
                         rule: Predict.IndicatorRule, i: nat)
    requires rule in Predict.IndicatorRules
    requires i < |modelFeatures| && modelFeatures[i] == rule.key
    ensures Backend.AlignFeatures(modelFeatures, RequestBody(Predict.Encode(form), parse))[i].1
         == if Predict.Get(form, rule.field) == rule.value then 1.0 else 0.0
  {
    Predict.LookupIndicator(form, rule);
    RequestBodyLookup(Predict.Encode(form), parse, rule.key);
  }

  /** A model feature the form never sends, such as a phone-service or gender indicator, is
      always 0 for the classifier. */
  lemma UnsentFeatureIsZero(form: Predict.Form, modelFeatures: seq<string>, parse: string -> real, i: nat)
    requires i < |modelFeatures| && modelFeatures[i] !in Predict.WireKeys
    ensures Backend.AlignFeatures(modelFeatures, RequestBody(Predict.Encode(form), parse))[i].1 == 0.0
  {
    var vec := Predict.Encode(form);
    LookupAbsent(vec, modelFeatures[i]);
    RequestBodyLookup(vec, parse, modelFeatures[i]);
  }

  lemma {:induction false} LookupAbsent(vec: Predict.FeatureVector, key: string)
    requires forall j :: 0 <= j < |vec| ==> vec[j].0 != key
    ensures Predict.Lookup(vec, key).None?
  {
    if vec != [] {
      LookupAbsent(vec[1..], key);
    }
  }

  /** The server never returns a probability: `result.churn_probability` is `undefined`. */
  function Answer(r: Backend.Response<int>): Predict.PredictOutcome
  {
    match r
    case Ok(p) => Predict.Answered(p, None)
    case HttpError(_, _) => Predict.Failed
  }

  /** After a successful prediction the form's churn risk is `undefined`, not the initial `null`,
      so the `churnRisk !== null` test passes and the probability line is shown with no number in
      it; a missing model always fails. */
  lemma PredictionRiskUndefined(token: Option<string>, model: Option<Backend.Model>, features: map<string, real>)
    ensures Answer(Backend.PredictChurn(token, model, features)).Answered? ==>
      var risk := Predict.RiskOf(Answer(Backend.PredictChurn(token, model, features)).churnProbability);
      risk == Predict.UndefinedRisk && Predict.ShowsProbability(risk)
    ensures token.Some? && model.Some? && model.value.predict(Backend.AlignFeatures(model.value.features, features)).Some? ==>
      Answer(Backend.PredictChurn(token, model, features)).Answered?
    ensures model.None? ==> Answer(Backend.PredictChurn(token, model, features)) == Predict.Failed
  {
  }
}
