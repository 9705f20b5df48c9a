# stream-cancer-predict in Dafny

This project models the two Python scripts of a breast-cancer prediction app.

- **The training script** (`project/main.py`) reads the Wisconsin diagnostic table under a fixed 32-column schema. It drops the identifier, encodes the diagnosis `M`/`B` as `1`/`0`, fits a scaler and a logistic-regression model on the 30 feature columns, and writes both with pickle into `model/`.
- **The Streamlit page** (`project/app/main.py`) builds 30 sliders. It flattens their values into one positional row, scales it with the stored scaler, asks the stored model for a class and class probabilities, and shows "Benign" or "Malignant". It also has a scripted "doctor chat" that hands out 50 canned replies round-robin.

The project has three modules:

- `Pipeline` (`pipeline.dfy`) covers the schema, column dropping, label encoding, cleaning, the feature/target split, and the training run as a list of side effects. Tables are column-major (`Frame = seq<Column>`). Feature readings stay opaque tokens. The fitted scaler and model come from a caller-supplied function `fit`.
- `Chat` (`chat.dfy`) first states the chat as a pure state machine (`ChatState`, `Respond`, `Send`, `Interact`, `Session`). It then models the page's in-place state as the class `DoctorChat`, whose methods are proved to follow that state machine.
- `Dashboard` (`dashboard.dfy`) covers the sliders and the insertion-ordered input dictionary. It also covers flattening, the train/serve column correspondence and the decoding of the prediction. The scaler's transform, the model's predict and its class probabilities are caller-supplied functions.

Two kinds of input are abstracted:

- File presence, the CSV parse and the slider positions are inputs. The parse is `None` when reading raised; a slider position is absent when the user left it untouched.
- The writes are returned as an ordered list of `Effect`s.

## Model

| member | source | states |
|---|---|---|
| Pipeline.ColumnNamesLayout | project/main.py:11-18 | the schema has 32 names: "id", then "diagnosis", then the 30 features as three groups (mean, se, worst) of the same ten quantities in the same order |
| Pipeline.ColumnNamesDistinct | project/main.py:11-18 | no two schema columns share a name |
| Pipeline.FieldAt | project/main.py:57 | a field is missing exactly when the record is too short for it or its text is empty or one of pandas' default NA markers; otherwise it is the record's text at that position |
| Pipeline.FieldColumn | project/main.py:57 | a column holds one value per record; the value is missing exactly for the records too short to reach it or whose field is empty or an NA marker, and is otherwise that field's text |
| Pipeline.ReadWithNames | project/main.py:57 | reading without a header under the imposed names: column j is named names[j] and holds field j of every record, and short records, empty fields and NA markers give missing values |
| Pipeline.ExistingColumns | project/main.py:63-64 | a name is kept iff it is one of the drop candidates and names a column of the table |
| Pipeline.DropColumns | project/main.py:65 | the removal part of the drop: a column survives iff it was in the table and its name is not one of the labels |
| Pipeline.Drop | project/main.py:65 | DataFrame.drop raises iff some label names no column; otherwise its result is the removal above |
| Pipeline.DropTwiceRaises | project/main.py:65 | after a successful drop of a non-empty list of labels, dropping the same labels again raises |
| Pipeline.DropColumnsAppend | project/main.py:65 | dropping distributes over concatenation, so the surviving columns keep their relative order |
| Pipeline.DropPresent | project/main.py:63-65 | dropping only the candidates that exist never raises; the survivors are exactly the columns named neither "Unnamed: 32" nor "id", in their order |
| Pipeline.UnfilteredDropRaises | project/main.py:62-65 | the filter is needed: on any table read under the imposed names, dropping both candidates unfiltered would raise, since no column is "Unnamed: 32" |
| Pipeline.DropPresentIdempotent | project/main.py:63-65 | running the drop step twice is running it once |
| Pipeline.EncodeLabel | project/main.py:69 | "M" becomes 1 and "B" becomes 0 (each an iff), and every other value becomes missing |
| Pipeline.EncodeValues | project/main.py:69 | the label map is applied to every value of the column, keeping its length |
| Pipeline.EncodeDiagnosis | project/main.py:68-69 | the names are unchanged, the label column holds the encoding of its values, and every other column is untouched |
| Pipeline.CleanFrame | project/main.py:62-75 | a table comes back iff it has a "diagnosis" column; it is then the drop step's result with the label column encoded, so its non-label columns are exactly the input's columns other than "Unnamed: 32", "id" and "diagnosis" |
| Pipeline.GetCleanData | project/main.py:49-79 | the cleaned data is missing iff the file is absent or reading raised; otherwise it is the reference table CleanedColumns of the records |
| Pipeline.CleanedColumns | project/main.py:57-69 | the reference cleaned table: 31 columns, "diagnosis" first and then the 30 feature names in schema order, each with one value per record |
| Pipeline.ReadThenDrop | project/main.py:57-65 | under the imposed names the drop step removes exactly the identifier column |
| Pipeline.CleanRead | project/main.py:57-75 | cleaning a table read under the imposed names gives the label column followed by the 30 features |
| Pipeline.SchemaFacts | project/main.py:11-18 | only position 0 of the schema is a drop candidate and only position 1 is the label |
| Pipeline.ColumnValues | project/main.py:27 | the target is the values of a column with the label's name |
| Pipeline.SplitFeaturesTarget | project/main.py:22-27 | there is a split iff the label column exists; the features are every other column in order, and the target is the label column's values |
| Pipeline.CreateModel | project/main.py:20-47 | (None, None) is returned iff there is no label column; with a label column the call raises iff fitting raises, and otherwise returns both the fitted model and scaler, fitted on the features without the label and on the label's values |
| Pipeline.CleanedSplit | project/main.py:26-27 | on cleaned data the features are exactly the 30 schema features in schema order, and the target is the encoded label of every record |
| Pipeline.LoadedDataTrains | project/main.py:82-85 | when the data loads, create_model never takes its no-label branch: it raises iff fitting on the 30 feature columns and the encoded labels raises, and otherwise returns both a model and a scaler from that fit |
| Pipeline.TrainAndSave | project/main.py:81-95 | nothing is written unless the data loaded, training returned and both artifacts exist; then the run creates "model" and writes the model to model/model.pkl, then the scaler to model/scaler.pkl; it writes anything iff the file exists, it parsed, and fitting on the cleaned features and labels does not raise |
| Chat.ResponseAt | project/app/main.py:64-66 | the list has 50 replies, and every reply handed out is one of them |
| Chat.ResponsesPeriodic | project/app/main.py:66 | replies repeat with period 50 |
| Chat.Respond | project/app/main.py:64-68 | a request returns doctor_responses[cursor mod 50]; only the cursor changes, and it advances by exactly one |
| Chat.Send | project/app/main.py:70-75 | sending appends exactly one exchange, pairing the pending message with the next reply; the earlier history is kept, the cursor advances and the message is cleared |
| Chat.Interact | project/app/main.py:85-89 | a press with non-empty text appends (text, next reply), advances the cursor and clears the message; otherwise history and cursor are unchanged and the text box's content is the pending message |
| Chat.Sent | project/app/main.py:87-89 | no message that is actually sent is empty |
| Chat.Session | project/app/main.py:85-89 | over a session of interactions the history only grows, its earlier entries are kept, and the cursor advances by as much as the history grows |
| Chat.SentAppend | project/app/main.py:87-89 | the messages sent over two runs of input are those of the first followed by those of the second |
| Chat.InteractStep | project/app/main.py:85-89 | one interaction adds to the history exactly the replies for what it sends, and moves the cursor by that count |
| Chat.RepliesAppend | project/app/main.py:64-75 | the replies to two batches of messages sent one after the other are the replies to the concatenated batch |
| Chat.SessionHistory | project/app/main.py:64-89 | over any session the history grows by exactly the messages sent, in order, each paired with the reply for its cursor, and the cursor advances once per message |
| Chat.FreshSession | project/app/main.py:61-95 | from the initial state, exchange k pairs the k-th message sent with reply k mod 50, and the cursor equals the history length |
| Chat.SendKeepsLockstep | project/app/main.py:70-75 | sending keeps the history in lockstep with the cursor: exchange i holds reply i mod 50 |
| Chat.DoctorChat.constructor | project/app/main.py:62 | the cursor starts at 0, the history empty and the pending message empty |
| Chat.DoctorChat.GetDoctorResponse | project/app/main.py:64-68 | returns doctor_responses[cursor mod 50], changes only the cursor, and advances it by one |
| Chat.DoctorChat.SendMessage | project/app/main.py:70-75 | the history gains exactly (pending message, next reply), the cursor advances, the message is cleared, and the history stays in lockstep with the cursor |
| Chat.DoctorChat.ChatInterface | project/app/main.py:85-89 | takes the typed text and sends it only on a press with non-empty text; otherwise history and cursor are unchanged; keeps the lockstep invariant |
| Dashboard.SliderValue | project/app/main.py:135 | every slider value lies in [0, 100]; it is the default 50 when untouched and the chosen position otherwise |
| Dashboard.Position | project/app/main.py:135 | a slider has a chosen position iff the user moved it, and then it is where they left it |
| Dashboard.Keys | project/app/main.py:132-135 | the dictionary's keys in insertion order |
| Dashboard.Store | project/app/main.py:135 | d[key] = value: a new key is appended at the end; for an existing key in a dictionary with distinct keys, the length is kept, that key's entry takes the value and every other entry is unchanged |
| Dashboard.SliderKeysDistinct | project/app/main.py:99-130 | the 30 slider keys are pairwise distinct |
| Dashboard.KeyIsNew | project/app/main.py:134-135 | each slider's key is new when it is stored, since the keys before it are the earlier sliders' |
| Dashboard.AddSidebar | project/app/main.py:96-138 | the dictionary has exactly the 30 keys, in slider order, each holding its slider's value, which lies in [0, 100] |
| Dashboard.Flatten | project/app/main.py:202 | the positional row has one value per entry, in dictionary order |
| Dashboard.Underscored | project/app/main.py:99-130 | writing spaces as underscores keeps the length: every space becomes '_' and every other character is unchanged |
| Dashboard.SliderKeysFollowSchema | project/app/main.py:99-130 | slider key i is training feature i with its space written as an underscore, and it differs from the training name exactly at the three "concave points" features |
| Dashboard.ServingRowMatchesTraining | project/app/main.py:202-204 | the flattened sidebar row has as many values as the model has training features, and value i is the slider for training feature i |
| Dashboard.DiagnosisLabel | project/app/main.py:207 | prediction 0 is shown as "Benign" and every other prediction as "Malignant" (each an iff) |
| Dashboard.LabelRoundTrip | project/app/main.py:207 | decoding inverts the training encoding: "M" shows as Malignant and "B" as Benign |
| Dashboard.AddPredictions | project/app/main.py:199-209 | the label is "Benign" iff the model predicts 0 on the scaled flattened row; the probabilities shown are the model's for that row |
| Dashboard.PredictFromSidebar | project/app/main.py:220-231 | the model is asked about the 30 slider values in slider order; the label shown decodes its answer and the probabilities shown are its class probabilities for that row |

## Left out

- Numerics of scikit-learn are not modelled. Scaling, the 80/20 split with `random_state=42`, logistic-regression fitting, accuracy and the classification report are folded into the opaque `fit`. Likewise, predict and predict_proba are opaque functions.
- Pipeline.CreateModel: `fit` returns None where scikit-learn raises. Which inputs make it raise is not modelled. Examples are a feature that is missing because a record is short, a non-numeric token, or a label other than M/B that became missing.
- Pipeline.DropColumns: on its own it ignores labels that name no column, where pandas raises KeyError. The raising is modelled by Pipeline.Drop. The source's calls at lines 26 and 65 pass only labels that exist.
- File I/O is abstracted. The existence check, the CSV read and the pickle writes become inputs and `Effect` values. On the app side, the pickle loads are replaced by the caller passing the scaler and model functions.
- Pipeline.ReadWithNames: does not model the finer points of pandas parsing: dtype inference, quoting, and records longer than the schema. Fields stay text tokens. `NaMarkers` is pandas 2's default NA list; older versions lack "None".
- Output to the console and the page is left out: the debug prints, `st.write` calls, titles and page configuration, the slider captions, and the rendering of the chat history.
- The radar chart (`get_radar_chart`) is left out, since it is display only.
- Dashboard.SliderValue: the clamp to [0, 100] stands for what the Streamlit widget guarantees. It is not code of the app.
- The module-level chat cursor is modelled as a field of one `DoctorChat` object. How Streamlit reruns reset module globals, and how session state persists, are not modelled.
- `chat_interface` is defined in the app but not called from its `main`. It is modelled as defined.
- Floating-point values are modelled as `real`, with no rounding.
