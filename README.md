# Cost-of-living forecast: a Dafny model

This project models the application logic of a small Flask web application.
Students register, log in, and submit a six-field profile: gender, year of
study, lifestyle, accommodation type, finance sources, and whether they earn
an income. The application answers with a forecast of their yearly cost of
living and keeps a history of past forecasts for each account.

How a forecast is made:

- The application takes the rows of a historical spreadsheet whose six
  categorical fields all equal the profile.
- It averages twelve numeric columns over those rows. If no row matches, it
  averages over the whole spreadsheet instead.
- It merges the averages with the profile into one 18-column row and passes
  that row to a pre-trained regression model.

The model has two parts:

- `Estimator` (`estimator.dfy`) is pure. It holds the profile filter,
  the column means with their fallback, and the dict merge that builds the
  model's input.
  - Means are taken over Dafny `real`, which is exact.
  - A mean over no rows is `NaN`, as in pandas. This can only happen when the
    spreadsheet itself is empty.
- `Accounts` (`accounts.dfy`) and `App` (`app.dfy`) model the route handlers.
  - `Accounts` holds the `User` and `Prediction` rows, the queries the routes
    run on them, and lemmas about those queries.
  - `App.CostApp` is a class. Its `seq` fields are the two tables, and an
    `Option` field is the login session. There is one method per route.
  - `Valid()` is the class invariant. It says that emails are unique, ids are
    the row ids 1, 2, 3, ..., and every prediction's `user_id` names an
    existing user. Every method keeps it.
  - The session is a browser cookie, so at start-up it may name somebody the
    tables do not hold. Examples are a cookie from before the database file
    was recreated, or one signed with the fixed key at `app.py:10`. Then the
    lookups at `app.py:123` and `app.py:148` find nobody, and reading
    `user.id` raises: the model answers `ServerError` and stores nothing.
  - In the model, a session set by `Login` always names a registered user,
    and registering keeps it so. While that holds, neither route fails on the
    name lookup (no `ServerError`). A forecast still fails when the model
    raises (`ModelError`).
- `Wrappers` (`wrappers.dfy`) holds the `Option` type.

Four things the source gets from outside are taken as given values. They are
constants of `CostApp`, passed to its constructor:

- `table` is the spreadsheet (`pd.read_excel`), loaded once at start-up;
- `predict` is the trained model's `predict`. It returns `None` when the model
  raises, and then nothing is stored;
- `hash` and `check` stand for werkzeug's `generate_password_hash` and
  `check_password_hash`. The salt, which werkzeug draws at random, is a
  parameter of `Register`. The one property assumed of them is
  `HashSound`: a hash accepts the password it was made from.

The constructor also takes the two tables as the database file holds them,
and the session the browser's cookie carries.

The spreadsheet columns are the enumerations `Measure` (12 numeric) and
`Category` (6 categorical). The keys of the model's input row are `Key`
values. `KeyName` gives the pandas column names, and
`Estimator.KeyNamesDistinct` proves those names pairwise distinct. So the
string-keyed `{**averages, **form_data}` of the source cannot lose an entry
either.

The session stores the user's display name, and the routes look the user up
by that name. If two accounts share a name, predictions made by the second
are credited to the first, and the second sees the first's history. Two
members show this: the lemma `Accounts.SessionUserIsFirstHolder` (the
lookup returns the logged-in user exactly when no earlier user shares the
name) and the scenario `App.SharedNameCreditsFirstAccount`. The model keeps
this behaviour as written.

## Model

| member | source | states |
|---|---|---|
| `Estimator.MatchesProfile` | app.py:100-107 | the boolean mask: the six column equalities, all required (characterised by `MatchIffEveryColumnAgrees`) |
| `Estimator.Matches` | app.py:100-107 | the filtered table never has more rows than the table |
| `Estimator.MatchesMembers` | app.py:100-107 | the matches are exactly the table rows on which all six equalities of the mask hold, and there are none exactly when no row of the table matches |
| `Estimator.MatchesMultiplicity` | app.py:100-107 | each matching row is kept as many times as it occurs in the table and every other row not at all |
| `Estimator.MatchIffEveryColumnAgrees` | app.py:100-107 | a row matches if and only if every categorical column agrees with the profile: the six conditions are ANDed, no partial match |
| `Estimator.MatchesAppend` | app.py:100-107 | the mask filters row by row: filtering a concatenation is the concatenation of the filtered parts, in order |
| `Estimator.KeyListed` | app.py:109-112 | every numeric column is among the averaged keys and every categorical column among the form keys |
| `Estimator.Sum` | app.py:115 | a column's total over some rows, the numerator of pandas' `.mean()` (bounded by `SumBounds`) |
| `Estimator.Mean` | app.py:115 | `.mean()` of one column: its total over the row count, NaN over no rows (bounded by `MeanWithinBounds`) |
| `Estimator.ColumnMeans` | app.py:109-115 | `rows[numeric_cols].mean().to_dict()`: one mean per numeric column |
| `Estimator.Averages` | app.py:115 | the averages over the matches, or over the whole table when the matches are empty (stated by `AveragesSelection` and the lemmas after it) |
| `Estimator.AveragesSelection` | app.py:115 | if some row matches, the averages are the column means of the matching rows; if none does, the column means of the whole table |
| `Estimator.AveragesKeysAndDefinedness` | app.py:109-115 | the averages have exactly the twelve numeric keys; over a non-empty table none is NaN (the fallback never averages an empty set), over an empty table all are |
| `Estimator.AverageOverMatches` | app.py:115 | with at least one match, each average is the matching rows' column total divided by their (non-zero) count |
| `Estimator.AverageFallback` | app.py:115 | with no match in a non-empty table, each average is the whole table's column total divided by its row count |
| `Estimator.SumBounds` | app.py:115 | a column total over n rows lies between n times any lower and n times any upper bound of the column |
| `Estimator.MeanWithinBounds` | app.py:115 | the mean of a column over a non-empty set of rows is defined and lies between any bounds of that column |
| `Estimator.AverageWithinBounds` | app.py:109-115 | every average over a non-empty table is defined and lies between any lower and upper bound of the table's column |
| `Estimator.UniformGroupAverage` | app.py:100-115 | when all matching rows have the same value in a column, that column's average is that value, whatever the other rows hold |
| `Estimator.OtherProfilesIgnored` | app.py:100-115 | once a profile has a match, adding rows of other profiles to the table leaves its averages unchanged |
| `Estimator.KeyNamesDistinct` | app.py:90-112 | the eighteen column names (six form keys, twelve numeric columns) are pairwise distinct |
| `Estimator.KeyCount` | app.py:90-112 | the numeric keys and the form keys are disjoint sets of twelve and six, eighteen in all |
| `Estimator.FormData` | app.py:90-97 | the form dict: each categorical column's key with the submitted string |
| `Estimator.BuildInput` | app.py:116 | `{**averages, **form_data}` over the model's keys (its keys and values stated by `MergedKeys` and `MergedValues`) |
| `Estimator.MergedKeys` | app.py:116 | the merged row's keys are the union of the averages' keys and the form's keys |
| `Estimator.MergedValues` | app.py:116 | in the merged row each numeric key carries its average and each form key its submitted string: neither side overwrites the other |
| `Estimator.ModelInput` | app.py:115-119 | the one-row frame passed to the model: the merge of the chosen averages with the form (contents stated by `ModelInputContents`) |
| `Estimator.Estimate` | app.py:119-120 | the model applied to that row, or none when it raises |
| `Estimator.ModelInputContents` | app.py:90-119 | the row passed to the model has every column; its numeric cells are the selected averages and its categorical cells the submitted profile strings |
| `Accounts.FirstBy` | app.py:50 | the lookup by email or name returns the position of the first user with that value, and none exactly when no user has it |
| `Accounts.OwnedBy` | app.py:149 | a user's history never holds more predictions than the log |
| `Accounts.OwnedByMembers` | app.py:149 | a user's history holds exactly the log's predictions with that user id |
| `Accounts.SessionUser` | app.py:123 | the user found for a session name is a registered user with that name, and none exactly when nobody has that name |
| `Accounts.Authenticate` | app.py:64-68 | login yields a session name only for a user with that email whose stored hash accepts the password; with unique emails, it fails exactly when no user with that email accepts it |
| `Accounts.FreshEmailKeepsUnique` | app.py:50-56 | appending a user whose email nobody holds keeps emails unique |
| `Accounts.FirstByAppend` | app.py:50-56 | after an append, a lookup finds the same earlier user, or else the appended one if it has the value |
| `Accounts.SessionUserIsFirstHolder` | app.py:123-125 | a logged-in user's name always resolves, and it resolves to that same user exactly when no earlier user shares the name |
| `Accounts.OwnedByInLogOrder` | app.py:149 | when prediction ids increase along the log, they increase along every user's history: the history keeps log order |
| `Accounts.OwnedByAppend` | app.py:134-149 | appending a prediction appends it to its owner's history and leaves every other history unchanged |
| `Accounts.AppendUserKeepsOwners` | app.py:54-56 | adding a user keeps every prediction's owner among the users |
| `Accounts.AppendUserKeepsSession` | app.py:54-56 | adding a user keeps the logged-in name among the users' names |
| `Accounts.RegisteredUserCanLogIn` | app.py:48-68 | right after registering with a fresh email, logging in with the same email and password yields the registered name |
| `App.CostApp.constructor` | app.py:9-37 | start-up over the database file as it stands (empty tables on the first start, the earlier rows after a restart) and whatever session the browser's cookie carries; establishes the invariant |
| `App.CostApp.Register` | app.py:43-58 | a taken email redirects back to the form and changes nothing; otherwise exactly one user with the next id, the name, the email and the hash is appended, emails stay unique, that user can then log in, and a session that named a user still does |
| `App.CostApp.Login` | app.py:61-73 | the session becomes the user's name exactly when the credentials check, and then names a registered user; on failure the session is unchanged; the tables are never touched |
| `App.CostApp.Logout` | app.py:77-81 | the session is cleared whether or not one was set (so logging out twice equals once); the tables are unchanged |
| `App.CostApp.Forecast` | app.py:83-140 | no session: redirect to login, nothing changes; GET: the form; POST: nothing stored if the model raised, a failure with nothing stored if nobody bears the session's name, else exactly one prediction appended, owned by the first user with that name, copying the profile and the model's output; no `ServerError` while the session names a user, though a raising model still gives `ModelError` |
| `App.CostApp.History` | app.py:142-150 | no session: redirect to login; a failure if nobody bears the session's name; otherwise exactly the predictions owned by the first user with that name, in log order; never a failure while the session names a user |
| `App.RegisterLoginForecastHistory` | app.py:43-150 | register, log in, forecast, then history lists exactly the one new prediction, owned by user 1 with the submitted profile and estimate |
| `App.SharedNameCreditsFirstAccount` | app.py:61-135 | when two accounts share a name and the second logs in, the forecast is credited to the first |
| `App.StaleCookieFails` | app.py:83-150 | after a restart with a cookie naming nobody in the tables, the history route fails, and a submitted profile fails once the model has run, with nothing stored |

## Left out

- `model.predict` and `joblib.load` (`app.py:36`, `app.py:120`) are not modelled. The model is the parameter `predict`, any function from input row to an optional cost.
- `pd.read_excel` (`app.py:37`) is file I/O. The spreadsheet is the constant `table`, and a failed load (fatal at start-up) is not modelled.
- Floating point is not modelled: pandas' `.mean()` works in floating point, and the model's means are exact `real` quotients.
- werkzeug's hashing internals are not modelled. `hash` and `check` are parameters, and only `HashSound` is assumed of them. The model does not assume that `check` rejects other passwords, so it says nothing about guessing passwords.
- Database transactions, commits and id assignment are not modelled as such. Ids are the row ids 1, 2, 3, ..., which is what SQLite assigns when there are no deletions.
- Row order is an assumption. The queries at `app.py:50`, `app.py:65`, `app.py:123` and `app.py:149` have no `ORDER BY`, so SQL leaves their order unspecified. The model takes insertion order.
  - The name lookup at `app.py:123` and the history at `app.py:149` filter unindexed columns, so SQLite scans the table in rowid order, which is insertion order.
  - The email lookups at `app.py:50` and `app.py:65` use the index that `unique=True` (`app.py:20`) creates. With unique emails at most one row matches, so order does not matter there.
- A restart over an existing database file is modelled only through the constructor's arguments. Those tables are assumed to satisfy the invariant: unique emails, sequential ids, and owners that exist. SQLite does not enforce the foreign key by default, but the routes never write a prediction without its owner and nothing deletes rows.
- The spreadsheet is assumed to have no missing cells, and categorical cells that pandas reads as strings. pandas reads a blank cell as NaN. `.mean()` skips NaN cells and divides by the count of the others, not by the row count as `Mean` does. A NaN cell, or a categorical column pandas reads as numbers (such as a `Year` of 1 to 4), never equals a form string. On such a table the source matches fewer rows than `MatchesProfile` does.
- An exception inside `model.predict` is a failed request in the source. The model answers `ModelError` and stores nothing.
- Only one browser's session is modelled. Several clients with their own cookies share the tables, but the model has a single `session`.
- Routing, templates, `flash` messages, the currency-formatted result string (`app.py:137`), and the pages that only render a template are not modelled: `/`, `/about`, and GET on `/register` and `/login`.
- A form missing one of its fields (a `KeyError` that Flask turns into a 400 response) is not modelled. Every form field is a parameter.
- `init_db.py` only creates the tables, and is not part of this model.
