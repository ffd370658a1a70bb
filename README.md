# California house-price predictor: feature-row assembly

The app is a single Streamlit script, `app.py`. When the user clicks
"Predict Price", it geocodes the address the user typed. If either
coordinate is missing it stops with "Geocoding failed.". Otherwise it
builds the `input_data` dictionary of the selected input mode:

- Simple mode: eleven widgets, with literal defaults for the economic
  indicators and the location strings, and two derived fields.
- Full mode: every feature except Latitude and Longitude comes from its
  own widget.

The app then makes a one-row DataFrame from that dictionary. It rewrites
the nine categorical columns to strings in place, projects the frame onto
the trained model's `required_features`, and shows `exp` of the model's
prediction. In Simple mode an advisory note follows the price.

This project models that pipeline in Dafny:

- `wrappers.dfy`: `Option` and `Result`.
- `values.dfy`: a cell value (a number, a 0/1 flag or a string), `int(b)`
  on a checkbox, and `astype(str)` on a cell.
- `features.dfy`: the 31 features and their column labels. The two
  dictionary literals are modelled as a mapping (a `map` over the features)
  plus a key order (a sequence listing every feature once). It also holds
  the Simple-mode literals, both modes' widgets with their defaults and
  bounds, and the properties of the two records.
- `frames.dfy`: the one-row frame as a class `Frame` with ordered `columns`
  and a `cells` map. Its method `CoerceStrings` is the in-place coercion
  loop, proved against the function `Coerced`. The projection
  `df[required_features]` is `Select`, which returns the ordered row or a
  KeyError listing the missing names.
- `geocoding.dfy`: how `geocode_address` chooses its result from the
  decoded service response, and the caller's `None` check.
- `app.dfy`: the whole click. `Request` is the specification as a
  function. `PredictPrice` is the handler run step by step on a `Frame`,
  and it is proved to end as `Request` says. The lemmas cover the geocoding
  gate, the schema projection and the relation between the two modes.

The trained model's `predict`, `np.exp` and the way Python renders a
number as text are function parameters. The model's `required_features` is
a parameter of type `seq<string>`.

Two checks are absent from the code, so the model has none either:

- `geocode_address` returns whatever numbers the service sends. Nothing
  checks the latitude and longitude ranges, so `GeocodeAddress` does not
  either.
- There is no startup check that the model's required names match the
  dictionaries. The projection raises a KeyError during the click, and
  `Request` models that as the outcome `MissingFeatures`.
  `ConformingSchemaEstimates` shows that a schema whose names are all
  feature labels always leads to an estimate.

## Model

| member | source | states |
|---|---|---|
| `Values.FlagOf` | app.py:111-115 | `int(b)` of a checkbox is 1 exactly when it is ticked, and 0 otherwise |
| `Values.AsString` | app.py:176 | `astype(str)` always yields a string; a string is kept as it is, and a flag becomes "1" or "0" |
| `Values.AsStringIdempotent` | app.py:174-176 | converting a cell to a string twice is the same as converting it once |
| `Features.NameInjective` | app.py:102-134 | no two features share a column label, so the dictionary keys are distinct |
| `Features.FullDefaults` | app.py:57-90 | the initial Full-mode widgets take the given lot size, and the LotDensity widget's default is that lot size in acres (lot / 43560) |
| `Features.RecordKeys` | app.py:101-168 | the records of both modes, for any inputs and coordinates, have the same key set; every feature is a key and appears in its mode's key order |
| `Features.ColumnOrders` | app.py:102-168 | each mode's key order has 31 entries and lists every feature exactly once; the two modes order the keys differently |
| `Features.FeatureGroups` | app.py:56-90 | the 31 features are the two coordinates plus the three widget columns of Full mode; `string_cols` names exactly the categorical features |
| `Features.RecordCoordinates` | app.py:102-138 | in both modes, Latitude and Longitude hold the geocoded coordinates |
| `Features.AmenityFlags` | app.py:111-158 | in both modes, each of the five amenity features is the flag 1 if its checkbox is ticked and 0 if not |
| `Features.CategoricalsAreStrings` | app.py:125-167 | in both modes, every categorical feature holds a string |
| `Features.SimpleDerivedFields` | app.py:122-123 | in Simple mode, ParkingTotal equals GarageSpaces, and LotDensity times 43560 equals LotSizeSquareFeet |
| `Features.SimpleFixedDefaults` | app.py:116-133 | in Simple mode, the 16 fixed features (the rates, CPI, Age 20, FireplacesTotal 1 and the nine location strings) hold their literals, and none of them is a coordinate |
| `Features.SimpleFixedIgnoresInputs` | app.py:116-133 | two Simple-mode records agree on those 16 features, whatever the inputs and coordinates |
| `Features.WidgetsFeedFeatures` | app.py:56-90 | the 29 Full-mode widgets and the features other than the two coordinates correspond one to one: no widget feeds a coordinate, distinct widgets feed distinct features, and every other feature has a widget |
| `Features.WidgetPanels` | app.py:56-90 | the Full form's first column holds the widgets of the property facts, its second those of age and the indicators, and its third the checkboxes and the categorical inputs |
| `Features.FullTakesInputs` | app.py:139-167 | in Full mode, the feature each widget feeds holds that widget's value unchanged |
| `Features.FullLocality` | app.py:139-167 | setting one Full-mode widget to a new value changes the record only at the feature that widget feeds, which then holds the new widget's entry |
| `Features.SimpleIsFullWithDefaults` | app.py:101-168 | a Simple-mode record equals the Full-mode record of the Full widgets left at their defaults, with the Simple inputs entered and ParkingTotal set to the garage count |
| `Features.UntouchedFormsAgree` | app.py:39-90 | the default widgets of both forms respect their bounds, and with no widget touched both modes build the same record |
| `Frames.Frame.constructor` | app.py:170 | a dictionary with distinct keys becomes a valid frame with those columns in key order and those cells |
| `Frames.Frame.CoerceStrings` | app.py:173-176 | the loop keeps the frame valid and its column order unchanged, and leaves the cells equal to `Coerced` of the old cells |
| `Frames.CoercedColumns` | app.py:173-176 | coercion keeps the set of columns, makes every listed column that is present a string, and leaves every other column unchanged |
| `Frames.CoercedIdempotent` | app.py:174-176 | running the coercion loop a second time changes nothing |
| `Frames.CoercedStrings` | app.py:174-176 | when every listed column that is present already holds a string, coercion changes nothing |
| `Frames.Missing` | app.py:178 | the missing names are exactly the required names that are not columns |
| `Frames.Select` | app.py:178 | the projection fails exactly when some required name is not a column, and then lists exactly the missing names; otherwise the row has the required labels, in order, each with the frame's cell |
| `Frames.SelectLabels` | app.py:178 | the labels of a projected row are exactly the required names, in order |
| `Frames.SelectIgnoresExtras` | app.py:178 | columns that are not required do not affect the projection |
| `Geocoding.FirstPlace` | app.py:18-19 | there is a first entry exactly when the decoded body has a non-empty `data` list, and it is that list's first element |
| `Geocoding.GeocodeAddress` | app.py:14-24 | the result is `(None, None)` with no first entry or when that entry lacks a coordinate member; otherwise it is that entry's latitude and longitude |
| `Geocoding.ResolvedExactly` | app.py:18-24 | the caller goes on exactly when the first entry has numeric latitude and longitude, and then uses exactly those two numbers |
| `Geocoding.FailuresAlike` | app.py:14-24 | a raised request, a missing `data` member and an empty list give the same `(None, None)`, which stops the caller |
| `Geocoding.OnlyFirstEntry` | app.py:19 | entries after the first never affect the result |
| `App.FrameOfRecord` | app.py:170 | either mode's dictionary has distinct key labels, and these are exactly the labels of its mapping |
| `App.CoercionKeepsRecord` | app.py:170-176 | on either mode's frame the coercion loop changes no cell, because every categorical already holds a string |
| `App.FeatureRowSchema` | app.py:170-178 | the projected row fails exactly when a required name is no feature's label, and then lists exactly those names; otherwise it holds each required label, in order, with the value its mode's dictionary gave that feature |
| `App.Request` | app.py:93-186 | the click fails at geocoding exactly when a coordinate is missing; an estimate carries the advisory note exactly in Simple mode |
| `App.PredictPrice` | app.py:93-186 | the handler, run with the in-place frame, ends with exactly the outcome of `Request` |
| `App.GeocodingGate` | app.py:95-98 | an unresolved address ends the click with GeocodingFailed, whatever the model and `exp` are |
| `App.ConformingSchemaEstimates` | app.py:178-182 | when every required name is a feature label and the address resolves, the click ends in an estimate |
| `App.SimplePricedAsFull` | app.py:101-186 | a Simple-mode click has the same outcome as a Full-mode click with the corresponding Full widgets, except that its estimate carries the advisory note |

## Left out

- Streamlit layout, widgets, spinner and messages: the model receives the
  widget values as data. `SimpleInputs.InBounds` and `FullInputs.InBounds`
  record the bounds the widgets enforce. No operation requires them,
  because the dictionary code does not depend on them.
- `requests.get`, `raise_for_status`, the timeout and JSON decoding:
  these are network I/O. Their result is the `Response` value, and any
  exception they raise is folded into `Raised`. Some bodies the model does
  not tell apart: a `data` member that is null, empty or not a list, a
  first entry that is not an object, and a top-level body that is not an
  object. In the code each of these either raises or reaches the `else`
  branch, and all give `(None, None)`. The model has no separate cases for
  them.
- `st.secrets`: the API key is read before the `try` (app.py:11). A missing
  key raises out of `geocode_address` and ends the click with an uncaught
  exception, not with "Geocoding failed.". The model has no outcome for
  that: the key is taken to be configured.
- Non-numeric coordinates: a coordinate member holding a JSON string or another
  non-numeric value is not modelled. Members are absent, null or a number.
- `joblib.load`, `model.predict` and `feature_names_in_`: the trained
  model is opaque. `predict` is a function parameter, and the required
  names are a parameter.
- `np.exp` and the currency formatting of the price: floating point.
  `exp` is a function parameter, and nothing is proved about its values.
- Numbers are exact reals. Python's distinction between `int` and `float`
  is not kept in `Value.Num`, and `lot_size_sqft / 43560.0` is exact rather
  than rounded.
- Values.AsString: how `str()` renders a number is the parameter
  `numeral`. The result is pinned down only for strings and flags.
- pandas internals: the frame is a label list plus a cell map with one row.
  Dtypes, the index and the text of the KeyError are not modelled. The
  error carries the missing names instead.
- Duplicate required names: `required_features` may hold duplicate names. The
  projection then repeats the column, as pandas does. The model neither
  forbids duplicates nor proves anything about them.
