/**
 * One click of "Predict Price" in app.py: geocode the address, stop unless
 * both coordinates came back, build the mode's `input_data`, turn it into
 * a one-row frame, coerce the string columns, project onto the model's
 * required features and price the row. The trained model's `predict` and
 * `np.exp` are parameters; so are the model's required feature names.
 */
module App {
  import opened Wrappers
  import opened Values
  import opened Features
  import opened Geocoding
  import opened Frames

  /** How a click ends. */
  datatype Outcome =
    | GeocodingFailed                       // "Geocoding failed." and st.stop()
    | MissingFeatures(names: seq<string>)   // `df[required_features]` raised KeyError
    | Estimate(price: real, advisory: bool) // the price shown, and whether the Simple-mode note follows

  /** The labels of a list of features, in the same order. */
  function ColumnLabels(order: seq<Feature>): (labels: seq<string>)
    ensures |labels| == |order| && forall i :: 0 <= i < |order| ==> labels[i] == Name(order[i])
  {
    seq(|order|, i requires 0 <= i < |order| => Name(order[i]))
  }

  /** The labels of the string columns app.py coerces, in its order. */
  function StringLabels(): seq<string> {
    ColumnLabels(StringColumns)
  }

  /** A record keyed by column label rather than by feature. */
  function Keyed(record: map<Feature, Value>): map<string, Value> {
    NameInjective();
    map f | f in record :: Name(f) := record[f]
  }

  /** The labels of a keyed record are the labels of its features, each holding that feature's value. */
  lemma KeyedAt(record: map<Feature, Value>)
    ensures forall f :: f in record ==> Name(f) in Keyed(record) && Keyed(record)[Name(f)] == record[f]
    ensures forall c :: c in Keyed(record) ==> exists f :: f in record && Name(f) == c
  {
    NameInjective();
  }

  /** The key labels of either mode's dictionary are distinct. */
  lemma LabelsDistinct(form: Form)
    ensures Distinct(ColumnLabels(ColumnOrder(form)))
  {
    ColumnOrders(form);
    NameInjective();
  }

  /** The record of either mode, keyed by label: every label is a key, holding its feature's entry. */
  lemma KeyedRecord(form: Form, lat: real, lon: real)
    ensures forall c :: c in Keyed(Assemble(form, lat, lon)) <==> !Unknown(c)
    ensures forall f :: Name(f) in Keyed(Assemble(form, lat, lon)) && Keyed(Assemble(form, lat, lon))[Name(f)] == Entry(form, lat, lon, f)
  {
    var record := Assemble(form, lat, lon);
    KeyedAt(record);
    forall f ensures f in record && record[f] == Entry(form, lat, lon, f) {
      RecordAt(form, lat, lon, f);
    }
  }

  /**
   * The dictionary of either mode makes a frame: its key labels are
   * distinct and are exactly the labels of its mapping.
   */
  lemma FrameOfRecord(form: Form, lat: real, lon: real)
    ensures Distinct(ColumnLabels(ColumnOrder(form)))
    ensures forall c :: c in Keyed(Assemble(form, lat, lon)) <==> c in ColumnLabels(ColumnOrder(form))
  {
    LabelsDistinct(form);
    KeyedRecord(form, lat, lon);
    ColumnOrders(form);
    LabelsAreNames(ColumnOrder(form));
  }

  /** An order listing every feature has every label among its labels, and nothing else. */
  lemma LabelsAreNames(order: seq<Feature>)
    requires forall f :: f in order
    ensures forall c :: c in ColumnLabels(order) <==> !Unknown(c)
  {
    var labels := ColumnLabels(order);
    forall c | !Unknown(c) ensures c in labels {
      var f :| Name(f) == c;
      assert f in order;
      var i :| 0 <= i < |order| && order[i] == f;
      assert labels[i] == c;
    }
    forall c | c in labels ensures !Unknown(c) {
      var i :| 0 <= i < |labels| && labels[i] == c;
      assert Name(order[i]) == c;
    }
  }

  /** The frame's string columns already hold strings, so the coercion loop leaves the cells as they were. */
  lemma CoercionKeepsRecord(form: Form, lat: real, lon: real, numeral: real -> string)
    ensures Coerced(Keyed(Assemble(form, lat, lon)), StringLabels(), numeral) == Keyed(Assemble(form, lat, lon))
  {
    var record := Assemble(form, lat, lon);
    var cells := Keyed(record);
    KeyedAt(record);
    CategoricalsAreStrings(form, lat, lon);
    FeatureGroups();
    forall c | c in cells && c in StringLabels() ensures cells[c].Str? {
      var i :| 0 <= i < |StringLabels()| && StringLabels()[i] == c;
      var f := StringColumns[i];
      assert f in StringColumns;
      assert Name(f) == c;
    }
    CoercedStrings(cells, StringLabels(), numeral);
  }

  /** The row handed to the model: the mode's record, coerced and projected onto the required names. */
  function FeatureRow(form: Form, lat: real, lon: real, required: seq<string>, numeral: real -> string): Result<Row, seq<string>> {
    Select(Coerced(Keyed(Assemble(form, lat, lon)), StringLabels(), numeral), required)
  }

  /** A required name no feature is labelled with. */
  predicate Unknown(n: string) {
    forall f :: Name(f) != n
  }

  /**
   * Projection fails exactly when the model requires a name that is not
   * one of the 31 labels, and then reports every such name; otherwise the
   * row has the required labels in order, each holding the value the
   * mode's dictionary gave that feature.
   */
  lemma FeatureRowSchema(form: Form, lat: real, lon: real, required: seq<string>, numeral: real -> string)
    ensures FeatureRow(form, lat, lon, required, numeral).Failure? <==> exists n :: n in required && Unknown(n)
    ensures FeatureRow(form, lat, lon, required, numeral).Failure? ==>
      forall n :: n in FeatureRow(form, lat, lon, required, numeral).error <==> n in required && Unknown(n)
    ensures FeatureRow(form, lat, lon, required, numeral).Success? ==>
      var row := FeatureRow(form, lat, lon, required, numeral).value;
      && |row| == |required|
      && forall i, f :: 0 <= i < |required| && Name(f) == required[i] ==>
           row[i] == (required[i], Entry(form, lat, lon, f))
  {
    CoercionKeepsRecord(form, lat, lon, numeral);
    KeyedRecord(form, lat, lon);
  }

  /** The whole click, as a function of the form, the geocoder's response and the model. */
  function Request(form: Form, response: Response, required: seq<string>, numeral: real -> string,
                   predict: Row -> real, exp: real -> real): (outcome: Outcome)
    ensures outcome.GeocodingFailed? <==> !Resolved(GeocodeAddress(response))
    ensures outcome.Estimate? ==> outcome.advisory == form.SimpleForm?
  {
    var c := GeocodeAddress(response);
    if !Resolved(c) then
      GeocodingFailed
    else
      match FeatureRow(form, c.lat.value, c.lon.value, required, numeral)
      case Failure(missing) => MissingFeatures(missing)
      case Success(row) => Estimate(exp(predict(row)), form.SimpleForm?)
  }

  /**
   * The click handler: the same steps run on a frame that the coercion
   * loop updates in place, ending as Request says.
   */
  method PredictPrice(form: Form, response: Response, required: seq<string>, numeral: real -> string,
                      predict: Row -> real, exp: real -> real) returns (outcome: Outcome)
    ensures outcome == Request(form, response, required, numeral, predict, exp)
  {
    var c := GeocodeAddress(response);
    if c.lat.None? || c.lon.None? {
      return GeocodingFailed;
    }
    var lat, lon := c.lat.value, c.lon.value;
    var record := Assemble(form, lat, lon);
    FrameOfRecord(form, lat, lon);
    var df := new Frame(ColumnLabels(ColumnOrder(form)), Keyed(record));
    df.CoerceStrings(StringLabels(), numeral);
    var selected := Select(df.cells, required);
    match selected
    case Failure(missing) =>
      outcome := MissingFeatures(missing);
    case Success(row) =>
      var logPrice := predict(row);
      outcome := Estimate(exp(logPrice), form.SimpleForm?);
  }

  /** A failed geocode ends the click before the model is consulted: the outcome is the same whatever the model. */
  lemma GeocodingGate(form: Form, response: Response, required: seq<string>, numeral: real -> string,
                      predict1: Row -> real, exp1: real -> real, predict2: Row -> real, exp2: real -> real)
    requires !Resolved(GeocodeAddress(response))
    ensures Request(form, response, required, numeral, predict1, exp1) == GeocodingFailed
    ensures Request(form, response, required, numeral, predict1, exp1)
         == Request(form, response, required, numeral, predict2, exp2)
  {
  }

  /** The model's schema matches the dictionaries: every name it requires is the label of a feature. */
  predicate Conforming(required: seq<string>) {
    forall n :: n in required ==> !Unknown(n)
  }

  /** With a conforming schema, every click whose address resolves ends in an estimate. */
  lemma ConformingSchemaEstimates(form: Form, response: Response, required: seq<string>, numeral: real -> string,
                                  predict: Row -> real, exp: real -> real)
    requires Conforming(required) && Resolved(GeocodeAddress(response))
    ensures Request(form, response, required, numeral, predict, exp).Estimate?
  {
    var c := GeocodeAddress(response);
    FeatureRowSchema(form, c.lat.value, c.lon.value, required, numeral);
  }

  /**
   * A Simple-mode click prices the same row as a Full-mode click with the
   * Full form's widgets as FullFrom fills them; only the advisory differs.
   */
  lemma SimplePricedAsFull(s: SimpleInputs, response: Response, required: seq<string>, numeral: real -> string,
                           predict: Row -> real, exp: real -> real)
    ensures var simple := Request(SimpleForm(s), response, required, numeral, predict, exp);
            var full := Request(FullForm(FullFrom(s)), response, required, numeral, predict, exp);
            simple == (if full.Estimate? then full.(advisory := true) else full)
  {
    var c := GeocodeAddress(response);
    if Resolved(c) {
      SimpleIsFullWithDefaults(s, c.lat.value, c.lon.value);
    }
  }
}
