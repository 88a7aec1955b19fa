/** The API's rules: aligning a prediction request to the model's features, the churn tally behind
    the dashboard, the users table of registration and login, the chat reply, and the customer
    lookup. The classifier, the retriever and password hashing are parameters. */
module Backend {
  import opened Wrappers
  import opened Text
  import opened CustomerRecord

  /** An endpoint's answer: a body, or an HTTP error with its status and detail. */
  datatype Response<T> = Ok(body: T) | HttpError(status: int, detail: string)

  const InternalError := "Internal server error"

  // ---------------------------------------------------------------------------------------------
  // Prediction

  /** The aligned row handed to the classifier: one (feature, value) pair per model feature. */
  function AlignFeatures(modelFeatures: seq<string>, features: map<string, real>): (r: seq<(string, real)>)
    ensures |r| == |modelFeatures|
    ensures forall i :: 0 <= i < |r| ==> r[i].0 == modelFeatures[i]
    ensures forall i :: 0 <= i < |r| && modelFeatures[i] in features ==> r[i].1 == features[modelFeatures[i]]
    ensures forall i :: 0 <= i < |r| && modelFeatures[i] !in features ==> r[i].1 == 0.0
  {
    seq(|modelFeatures|, i requires 0 <= i < |modelFeatures| =>
      (modelFeatures[i], if modelFeatures[i] in features then features[modelFeatures[i]] else 0.0))
  }

  /** Keys the model does not know are dropped: two requests that agree on the model's features
      are aligned to the same row. */
  lemma AlignIgnoresOtherKeys(modelFeatures: seq<string>, f1: map<string, real>, f2: map<string, real>)
    requires forall k :: k in modelFeatures ==> (k in f1 <==> k in f2)
    requires forall k :: k in modelFeatures && k in f1 ==> f1[k] == f2[k]
    ensures AlignFeatures(modelFeatures, f1) == AlignFeatures(modelFeatures, f2)
  {
    var a, b := AlignFeatures(modelFeatures, f1), AlignFeatures(modelFeatures, f2);
    forall i | 0 <= i < |a| ensures a[i] == b[i] {
      assert modelFeatures[i] in modelFeatures;
    }
  }

  /** An empty request is the all-zero row. */
  lemma AlignEmpty(modelFeatures: seq<string>)
    ensures forall i :: 0 <= i < |modelFeatures| ==> AlignFeatures(modelFeatures, map[])[i] == (modelFeatures[i], 0.0)
  {
  }

  /** The loaded classifier: the feature names it was fitted on, and its prediction for an aligned
      row, or `None` when predicting raises. */
  datatype Model = Model(features: seq<string>, predict: seq<(string, real)> -> Option<int>)

  const PredictionError := "Prediction error"

  /** `predict_churn`. A bearer token must be sent but its value is never checked. A missing model
      raises its own 500, which the broad handler replaces by the prediction error. */
  function PredictChurn(token: Option<string>, model: Option<Model>, features: map<string, real>): Response<int>
  {
    if token.None? then HttpError(401, "Not authenticated")
    else if model.None? then HttpError(500, PredictionError)
    else match model.value.predict(AlignFeatures(model.value.features, features))
      case None => HttpError(500, PredictionError)
      case Some(p) => Ok(p)
  }

  /** Any token is accepted; a missing model and a failing classifier both give the prediction
      error; otherwise the answer is the classifier's prediction for the aligned row. */
  lemma PredictChurnCases(token: Option<string>, model: Option<Model>, features: map<string, real>)
    ensures PredictChurn(token, model, features).HttpError? && PredictChurn(token, model, features).status != 500
      <==> token.None?
    ensures token.Some? && model.None? ==> PredictChurn(token, model, features) == HttpError(500, PredictionError)
    ensures token.Some? && model.Some? ==>
      var row := AlignFeatures(model.value.features, features);
      PredictChurn(token, model, features)
        == if model.value.predict(row).Some? then Ok(model.value.predict(row).value) else HttpError(500, PredictionError)
    ensures forall t :: PredictChurn(Some(t), model, features) == PredictChurn(Some(""), model, features)
  {
  }

  // ---------------------------------------------------------------------------------------------
  // Dashboard

  /** One row of the churn data: the churn column's text, and the tenure and monthly charge as
      `pd.to_numeric(..., errors='coerce')` reads them (`None` where the text is not a number). */
  datatype ChurnRow = ChurnRow(churn: string, tenure: Option<real>, monthlyCharges: Option<real>)

  /** The churn data as loaded: its column names and its rows. */
  datatype ChurnTable = ChurnTable(columns: set<string>, rows: seq<ChurnRow>)

  datatype Summary = Summary(
    totalCustomers: nat,
    churnRate: real,
    avgTenure: real,
    avgMonthlyCharge: real,
    activeCustomers: nat,
    churned: nat,
    retained: nat)

  /** The dashboard's answer: the summary, or an error dictionary with its message. */
  datatype DashboardReply = Figures(summary: Summary) | ErrorDict(message: string)

  /** The churn column mapped with `{"Yes": 1, "No": 0}` and then `fillna(0)`. */
  function ChurnFlag(v: string): (b: nat)
    ensures b <= 1
    ensures b == 1 <==> v == "Yes"
  {
    if v == "Yes" then 1 else 0
  }

  /** The number of rows whose churn flag is `bit`. */
  function CountFlag(rows: seq<ChurnRow>, bit: nat): (n: nat)
    ensures n <= |rows|
  {
    if rows == [] then 0 else (if ChurnFlag(rows[0].churn) == bit then 1 else 0) + CountFlag(rows[1..], bit)
  }

  function Sum(xs: seq<real>): real
  {
    if xs == [] then 0.0 else xs[0] + Sum(xs[1..])
  }

  /** The mean of a non-empty column. */
  function Mean(xs: seq<real>): real
    requires xs != []
  {
    Sum(xs) / |xs| as real
  }

  function Flags(rows: seq<ChurnRow>): (r: seq<real>)
    ensures |r| == |rows|
  {
    seq(|rows|, i requires 0 <= i < |rows| => ChurnFlag(rows[i].churn) as real)
  }

  function Tenures(rows: seq<ChurnRow>): (r: seq<real>)
    ensures |r| == |rows|
  {
    seq(|rows|, i requires 0 <= i < |rows| => rows[i].tenure.GetOr(0.0))
  }

  function Charges(rows: seq<ChurnRow>): (r: seq<real>)
    ensures |r| == |rows|
  {
    seq(|rows|, i requires 0 <= i < |rows| => rows[i].monthlyCharges.GetOr(0.0))
  }

  const LoadError := "Error fetching dashboard data. Please try again later."
  const NoCustomers := "No valid customers found in the data."

  /** `get_dashboard_data`, given the data as loaded or `None` when loading raised. */
  function DashboardData(load: Option<ChurnTable>): DashboardReply
  {
    if load.None? then ErrorDict(LoadError)
    else
      var t := load.value;
      if "Churn" !in t.columns then ErrorDict("Missing 'Churn' column in dataset.")
      else if "tenure" !in t.columns then ErrorDict("Missing 'tenure' column in dataset.")
      else if "MonthlyCharges" !in t.columns then ErrorDict("Missing 'MonthlyCharges' column in dataset.")
      else if |t.rows| == 0 then ErrorDict(NoCustomers)
      else
        var retained := CountFlag(t.rows, 0);
        Figures(Summary(|t.rows|, Mean(Flags(t.rows)), Mean(Tenures(t.rows)), Mean(Charges(t.rows)),
                        retained, CountFlag(t.rows, 1), retained))
  }

  /** Every row is counted once, as churned or as retained. */
  lemma {:induction false} CountsSplit(rows: seq<ChurnRow>)
    ensures CountFlag(rows, 1) + CountFlag(rows, 0) == |rows|
  {
    if rows != [] {
      CountsSplit(rows[1..]);
    }
  }

  /** The sum of the flags is the number of churned rows. */
  lemma {:induction false} SumOfFlags(rows: seq<ChurnRow>)
    ensures Sum(Flags(rows)) == CountFlag(rows, 1) as real
  {
    if rows != [] {
      assert Flags(rows)[1..] == Flags(rows[1..]);
      SumOfFlags(rows[1..]);
    }
  }

  /** A summary is given exactly when the data loaded with its three columns and at least one
      row; its counts split the total, the active customers are the retained ones, and the churn
      rate is the churned share of the total. */
  lemma DashboardTally(load: Option<ChurnTable>)
    ensures DashboardData(load).Figures? <==>
      load.Some? && "Churn" in load.value.columns && "tenure" in load.value.columns
      && "MonthlyCharges" in load.value.columns && |load.value.rows| > 0
    ensures DashboardData(load).Figures? ==>
      var s := DashboardData(load).summary;
      s.totalCustomers == |load.value.rows| > 0
      && s.churned + s.retained == s.totalCustomers
      && s.activeCustomers == s.retained
      && s.churnRate == s.churned as real / s.totalCustomers as real
      && 0.0 <= s.churnRate <= 1.0
  {
    if DashboardData(load).Figures? {
      var rows := load.value.rows;
      CountsSplit(rows);
      SumOfFlags(rows);
      RateBounds(CountFlag(rows, 1), |rows|);
    }
  }

  lemma RateBounds(churned: nat, total: nat)
    requires churned <= total && total > 0
    ensures 0.0 <= churned as real / total as real <= 1.0
  {
    assert churned as real / total as real * total as real == churned as real;
  }

  // ---------------------------------------------------------------------------------------------
  // Users

  /** A row of the users table: the email and the stored password hash. */
  datatype UserRow = UserRow(email: string, passwordHash: string)

  datatype Token = Token(accessToken: string, tokenType: string)

  function Emails(users: seq<UserRow>): (r: seq<string>)
    ensures |r| == |users|
  {
    seq(|users|, i requires 0 <= i < |users| => users[i].email)
  }

  predicate UniqueEmails(users: seq<UserRow>)
  {
    forall i, j :: 0 <= i < j < |users| ==> users[i].email != users[j].email
  }

  lemma EmailsOf(users: seq<UserRow>)
    ensures forall k :: 0 <= k < |users| ==> users[k].email in Emails(users)
  {
    forall k | 0 <= k < |users| ensures users[k].email in Emails(users) {
      assert Emails(users)[k] == users[k].email;
    }
  }

  /** The table `load_users` hands to a handler: empty when reading the file fails. */
  function SeenUsers(users: seq<UserRow>, readFailed: bool): seq<UserRow>
  {
    if readFailed then [] else users
  }

  /** Appending an email that is not yet in the table keeps the emails unique. */
  lemma AppendKeepsUnique(users: seq<UserRow>, email: string, hash: string)
    requires UniqueEmails(users) && email !in Emails(users)
    ensures UniqueEmails(users + [UserRow(email, hash)])
  {
    var u := users + [UserRow(email, hash)];
    forall i, j | 0 <= i < j < |u| ensures u[i].email != u[j].email {
      if j == |users| {
        assert Emails(users)[i] == users[i].email;
      }
    }
  }

  /** The position of the first row with the given email at or after `from`, or the table's size. */
  function FirstUser(users: seq<UserRow>, email: string, from: nat): (k: nat)
    requires from <= |users|
    decreases |users| - from
    ensures from <= k <= |users|
    ensures k < |users| ==> users[k].email == email
    ensures forall j :: from <= j < k ==> users[j].email != email
  {
    if from == |users| || users[from].email == email then from else FirstUser(users, email, from + 1)
  }

  /** `login`: the first row with the username's email must exist and its hash must verify the
      password; the 401 for a failure is replaced by the broad handler's 500. */
  function LoginReply(users: seq<UserRow>, username: string, password: string,
                      verify: (string, string) -> bool): Response<Token>
  {
    var k := FirstUser(users, username, 0);
    if k == |users| || !verify(password, users[k].passwordHash) then HttpError(500, InternalError)
    else Ok(Token(username, "bearer"))
  }

  /** A login succeeds exactly when the first row with that email verifies the password, and its
      token is the username itself. */
  lemma LoginCases(users: seq<UserRow>, username: string, password: string, verify: (string, string) -> bool)
    ensures LoginReply(users, username, password, verify).Ok? <==>
      exists k :: (0 <= k < |users| && users[k].email == username && verify(password, users[k].passwordHash)
                   && forall j :: 0 <= j < k ==> users[j].email != username)
    ensures LoginReply(users, username, password, verify).Ok? ==>
      LoginReply(users, username, password, verify).body == Token(username, "bearer")
    ensures LoginReply(users, username, password, verify).HttpError? ==>
      LoginReply(users, username, password, verify) == HttpError(500, InternalError)
    ensures username !in Emails(users) ==> LoginReply(users, username, password, verify).HttpError?
  {
    var k := FirstUser(users, username, 0);
    if k < |users| && verify(password, users[k].passwordHash) {
      assert users[k].email == username;
    }
    EmailsOf(users);
  }

  lemma {:induction false} FirstUserAppend(users: seq<UserRow>, row: UserRow, email: string, from: nat)
    requires from <= |users|
    decreases |users| - from
    ensures FirstUser(users + [row], email, from)
      == if FirstUser(users, email, from) < |users| || row.email == email then FirstUser(users, email, from)
         else |users| + 1
  {
    if from < |users| && users[from].email != email {
      FirstUserAppend(users, row, email, from + 1);
    }
  }

  /** Registering a new email with the hash of a password lets that password log in, and leaves
      every other user's login as it was. */
  lemma LoginAfterRegister(users: seq<UserRow>, email: string, hash: string, username: string,
                           password: string, verify: (string, string) -> bool)
    requires email !in Emails(users)
    ensures verify(password, hash) ==>
      LoginReply(users + [UserRow(email, hash)], email, password, verify) == Ok(Token(email, "bearer"))
    ensures username != email ==>
      LoginReply(users + [UserRow(email, hash)], username, password, verify)
        == LoginReply(users, username, password, verify)
  {
    FirstUserAppend(users, UserRow(email, hash), email, 0);
    FirstUserAppend(users, UserRow(email, hash), username, 0);
    EmailsOf(users);
  }

  const Registered := "User registered successfully"

  class UserStore {
    var users: seq<UserRow>

    constructor (rows: seq<UserRow>)
      ensures users == rows
    {
      users := rows;
    }

    /** `register`. `hash` is the salted hash of the password and `readFailed` says whether reading
        the table failed, in which case the handler sees an empty table. An email already in the
        table appends nothing, and its 400 is replaced by the broad handler's 500; a new email
        appends exactly one row. */
    method Register(email: string, hash: string, readFailed: bool) returns (r: Response<string>)
      modifies this`users
      ensures email in Emails(SeenUsers(old(users), readFailed)) ==>
        r == HttpError(500, InternalError) && users == old(users)
      ensures email !in Emails(SeenUsers(old(users), readFailed)) ==>
        r == Ok(Registered) && users == old(users) + [UserRow(email, hash)]
      ensures !readFailed && UniqueEmails(old(users)) ==> UniqueEmails(users)
    {
      var seen := SeenUsers(users, readFailed);
      if email in Emails(seen) {
        return HttpError(500, InternalError);
      }
      if !readFailed && UniqueEmails(users) {
        AppendKeepsUnique(users, email, hash);
      }
      users := users + [UserRow(email, hash)];
      r := Ok(Registered);
    }
  }

  // ---------------------------------------------------------------------------------------------
  // Chat

  const ChatUnavailable := "Chat functionality is currently unavailable."
  const NothingFound := "I couldn't find relevant information about that."
  const ChatFailure := "An error occurred while processing your request."

  /** `chat`. `retrieve` is the retriever's answer for a stripped query: the contents of the
      documents found, best first, or `None` when retrieval raises. The module always builds its
      retriever at import, so `retrieverReady` is true in the running service and the unavailable
      branch is kept only as the code writes it. */
  function ChatReply(query: string, retrieverReady: bool, retrieve: string -> Option<seq<string>>): Response<string>
  {
    var q := StripPy(query);
    if q == [] then HttpError(400, "Query cannot be empty.")
    else if !retrieverReady then Ok(ChatUnavailable)
    else match retrieve(q)
      case None => HttpError(500, ChatFailure)
      case Some(results) => if results == [] then Ok(NothingFound) else Ok(results[0])
  }

  /** A query that is blank to Python is refused with 400; any other query gets the unavailable
      notice without a retriever, a 500 when retrieval raises, and otherwise the first document
      retrieved for its stripped form, or the fallback when none is found. */
  lemma ChatCases(query: string, retrieverReady: bool, retrieve: string -> Option<seq<string>>)
    ensures ChatReply(query, retrieverReady, retrieve).HttpError?
              && ChatReply(query, retrieverReady, retrieve).status == 400
      <==> forall i :: 0 <= i < |query| ==> query[i] in PyWhitespace
    ensures StripPy(query) != [] && retrieverReady && retrieve(StripPy(query)).Some? ==>
      var results := retrieve(StripPy(query)).value;
      ChatReply(query, retrieverReady, retrieve) == Ok(if results == [] then NothingFound else results[0])
    ensures StripPy(query) != [] && !retrieverReady ==> ChatReply(query, retrieverReady, retrieve) == Ok(ChatUnavailable)
    ensures StripPy(query) != [] && retrieverReady && retrieve(StripPy(query)).None? ==>
      ChatReply(query, retrieverReady, retrieve) == HttpError(500, ChatFailure)
  {
  }

  /** Surrounding whitespace never changes the reply: a query and its stripped form are answered
      alike. */
  lemma ChatIgnoresSurroundingSpace(query: string, retrieverReady: bool, retrieve: string -> Option<seq<string>>)
    ensures ChatReply(StripPy(query), retrieverReady, retrieve) == ChatReply(query, retrieverReady, retrieve)
  {
    TrimByIdempotent(query, PyWhitespace);
  }

  // ---------------------------------------------------------------------------------------------
  // Customer lookup

  /** The position of the first row with the given customer ID at or after `from`, or the number
      of rows. */
  function FirstCustomer(rows: seq<Customer>, id: string, from: nat): (k: nat)
    requires from <= |rows|
    decreases |rows| - from
    ensures from <= k <= |rows|
    ensures k < |rows| ==> rows[k].customerID == id
    ensures forall j :: from <= j < k ==> rows[j].customerID != id
  {
    if from == |rows| || rows[from].customerID == id then from else FirstCustomer(rows, id, from + 1)
  }

  /** `get_customer_profile`: the first record with exactly that ID. */
  function CustomerProfile(rows: seq<Customer>, id: string): Response<Customer>
  {
    var k := FirstCustomer(rows, id, 0);
    if k == |rows| then HttpError(404, "Customer not found") else Ok(rows[k])
  }

  /** 404 exactly when no record has the ID; otherwise the first record that has it. */
  lemma CustomerProfileCases(rows: seq<Customer>, id: string)
    ensures CustomerProfile(rows, id) == HttpError(404, "Customer not found")
      <==> forall j :: 0 <= j < |rows| ==> rows[j].customerID != id
    ensures CustomerProfile(rows, id).Ok? ==>
      exists k :: (0 <= k < |rows| && CustomerProfile(rows, id).body == rows[k]
                   && rows[k].customerID == id && forall j :: 0 <= j < k ==> rows[j].customerID != id)
  {
    var k := FirstCustomer(rows, id, 0);
    if k < |rows| {
      assert CustomerProfile(rows, id).body == rows[k];
    }
  }
}
