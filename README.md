# Request-handling rules of the AirBnB clone REST API (v1 views)

This project models, in Dafny, the six resource view modules of the
`/api/v1` JSON API (State, City, Place, Review, User, Amenity) and the
`/status` and `/stats` routes. For every handler it states which status and
message a request produces, in which order the checks run, and how the object
table changes.

Structure:

- `Models` defines the six kinds, JSON values, records and the object table
  `Db = map<Kind, map<string, Record>>`. It also defines the invariant that
  every stored object's `id` attribute is its own key.
- `Http` defines a response as a status and a payload. The application's 404
  handler always answers `{"error": "Not found"}`.
- `Storage.ObjectStore` is a class over the table, used as an explicitly
  passed store. It models `get`, `count`, saving a new object, `delete`,
  `setattr` on a stored object, and the generation of a fresh id.
- `Relations` defines parent/child membership (a child's link attribute
  holds the parent id) and the listing loop `Collect`.
- `Rules` states the shared request contract once, as functions of the
  table:
  - `Create` runs a per-kind list of checks (`CreateChecks`) and stops at
    the first one that fails.
  - `Update` either copies the body minus a per-kind protected set, or, for
    State, sets `name` alone.
  - `Get` and `Delete`.

  Its lemmas spell out the order of checks for each kind and what each rule
  does to the table.
- `States`, `Cities`, `Places`, `Reviews`, `Users`, `Amenities` and `Index`
  follow the view files one for one. Each handler is an imperative method
  with the source's own sequence of checks. Each method is proved equal to
  its `Rules` function, or, for listings and stats, to the property directly.

A request body is `Option<map<string, Value>>`. An absent body and an empty
object are both "Not a JSON", because the views test `if not data`.

The handlers have a few quirks that the model reproduces as written:

- **Parent link.** City, Place and Review creation set the parent-link
  attribute (`state_id`, `city_id`, `place_id`) to the new object's own id,
  not to the parent id from the path. The lemma `Rules.CreatedChildLinkedToItself`
  states the consequence: a created child is listed only under a "parent"
  whose id equals the child's own id.
- **Create orders differ between Review and Place.** Review creation checks
  `text` before it looks up the user (places_reviews.py:91-96). Place
  creation looks up the user before it checks `name` (places.py:90-95).
- **State update.** Unlike the other five updates, it looks the state up
  before it checks the body. It sets
  only `name`, to null when the body has none, and ignores every other key.
- **400 responses.** The application registers only a 404 handler, so a 400
  is rendered by the web framework's default error page. The model keeps
  only the description (for example "Not a JSON") as `Error(description)`;
  it does not claim a JSON body.

## Model

| member | source | states |
|---|---|---|
| Reviews.GetReviews | api/v1/views/places_reviews.py:18-33 | An unknown place gives 404. Otherwise 200 with a list holding each review whose `place_id` is the place id, exactly once, and nothing else. |
| Reviews.GetReview | api/v1/views/places_reviews.py:36-47 | 200 with the stored review, or 404 for an unknown id; reads only. |
| Reviews.DeleteReview | api/v1/views/places_reviews.py:50-64 | Equals `Rules.Delete`: 404 with no change for an unknown id; otherwise `{}` with exactly that review removed. The store stays well formed. |
| Reviews.PostReview | api/v1/views/places_reviews.py:67-100 | Equals `Rules.Create` for Review at the new id, which is fresh whenever the answer is 201. The store stays well formed. On 201 the new id is non-empty and was never issued before for that kind, even to an object since deleted. It is then recorded as issued; any other answer issues no id. |
| Reviews.PutReview | api/v1/views/places_reviews.py:103-126 | Equals `Rules.Update` for Review: "Not a JSON" before 404. Every body key except id, user_id, place_id, created_at and updated_at is set on the stored review. |
| Places.GetPlaces | api/v1/views/places.py:19-34 | An unknown city gives 404. Otherwise 200 with each place whose `city_id` is the city id, exactly once. |
| Places.GetPlace | api/v1/views/places.py:37-48 | 200 with the stored place, or 404 for an unknown id. |
| Places.DeletePlace | api/v1/views/places.py:51-65 | Equals `Rules.Delete` for Place: 404 and no change, or `{}` with only that place removed. |
| Places.PostPlace | api/v1/views/places.py:68-99 | Equals `Rules.Create` for Place: unknown city, then "Not a JSON", then "Missing user_id", then unknown user, then "Missing name". On 201 the new id is non-empty and was never issued before for that kind, even to an object since deleted. It is then recorded as issued; any other answer issues no id. |
| Places.PutPlace | api/v1/views/places.py:102-125 | Equals `Rules.Update` for Place: "Not a JSON" before 404. Keys other than id, user_id, city_id, created_at and updated_at are copied. |
| Cities.GetCities | api/v1/views/cities.py:18-33 | An unknown state gives 404. Otherwise 200 with each city whose `state_id` is the state id, exactly once. |
| Cities.GetCity | api/v1/views/cities.py:36-47 | 200 with the stored city, or 404 for an unknown id. |
| Cities.DeleteCity | api/v1/views/cities.py:50-64 | Equals `Rules.Delete` for City: 404 and no change, or `{}` with only that city removed. |
| Cities.PostCity | api/v1/views/cities.py:67-93 | Equals `Rules.Create` for City: unknown state (whatever the body), then "Not a JSON", then "Missing name". On 201 the new id is non-empty and was never issued before for that kind, even to an object since deleted. It is then recorded as issued; any other answer issues no id. |
| Cities.PutCity | api/v1/views/cities.py:96-119 | Equals `Rules.Update` for City: "Not a JSON" before 404. Keys other than id, state_id, created_at and updated_at are copied. |
| Users.GetAllUsers | api/v1/views/users.py:17-27 | Always 200, with each stored user exactly once. |
| Users.GetUser | api/v1/views/users.py:30-41 | 200 with the stored user, or 404 for an unknown id. |
| Users.DeleteUser | api/v1/views/users.py:44-58 | Equals `Rules.Delete` for User: 404 and no change, or `{}` with only that user removed. |
| Users.PostUser | api/v1/views/users.py:61-85 | Equals `Rules.Create` for User: "Not a JSON", then "Missing email", then "Missing password"; no lookup. On 201 the new id is non-empty and was never issued before for that kind, even to an object since deleted. It is then recorded as issued; any other answer issues no id. |
| Users.PutUser | api/v1/views/users.py:88-111 | Equals `Rules.Update` for User: "Not a JSON" before 404. Keys other than id, email, created_at and updated_at are copied, `password` included. |
| Amenities.GetAllAmenities | api/v1/views/amenities.py:17-27 | Always 200, with each stored amenity exactly once. |
| Amenities.GetAmenity | api/v1/views/amenities.py:30-41 | 200 with the stored amenity, or 404 for an unknown id. |
| Amenities.DeleteAmenity | api/v1/views/amenities.py:44-58 | Equals `Rules.Delete` for Amenity: 404 and no change, or `{}` with only that amenity removed. |
| Amenities.PostAmenity | api/v1/views/amenities.py:61-81 | Equals `Rules.Create` for Amenity: "Not a JSON", then "Missing name". On 201 the new id is non-empty and was never issued before for that kind, even to an object since deleted. It is then recorded as issued; any other answer issues no id. |
| Amenities.PutAmenity | api/v1/views/amenities.py:84-107 | Equals `Rules.Update` for Amenity: "Not a JSON" before 404. Every key except id, created_at and updated_at is copied. |
| States.ListStates | api/v1/views/states.py:17-23 | Always 200, with each stored state exactly once. |
| States.GetState | api/v1/views/states.py:26-39 | 200 with the stored state, or 404 for an unknown id. |
| States.DeleteState | api/v1/views/states.py:42-59 | Equals `Rules.Delete` for State: only the state goes, and its cities stay. |
| States.CreateState | api/v1/views/states.py:62-73 | Equals `Rules.Create` for State: "Not a JSON", then "Missing name". On 201 the new id is non-empty and was never issued before for that kind, even to an object since deleted. It is then recorded as issued; any other answer issues no id. |
| States.UpdateState | api/v1/views/states.py:76-96 | Equals `Rules.Update` for State: 404 before "Not a JSON", then `name` alone is set. |
| Index.Status | api/v1/views/index.py:21-26 | Always 200 with exactly `{"status": "OK"}`; takes no store, so it reads no state. |
| Index.Stats | api/v1/views/index.py:29-39 | 200 with a statistics object (`Counts`): one key per name in `classes` and nothing else, each holding the number of stored objects of the kind it names. The store is not modified. |
| Index.CountsByName | api/v1/views/index.py:11-39 | A statistics answer, name by name, read through the `classes` table: exactly the keys amenities, cities, places, reviews, states and users. Each holds the count of its own kind (`"cities"` is the City count, ...). |
| Views.CopyAttrs | api/v1/views/places_reviews.py:122-124 | The `setattr` loop: every body key outside the skip set is written on the stored object, and nothing else in the store changes. |
| Relations.Collect | api/v1/views/places_reviews.py:31-32 | The listing loop returns the records of exactly the selected ids, each once. |
| Relations.EnumerationSize | api/v1/views/places_reviews.py:27-33 | A listing has exactly one entry per selected object (length equals the number of linked children). |
| Rules.CreateReviewOrder | api/v1/views/places_reviews.py:83-100 | Unknown place gives 404 whatever the body. Then "Not a JSON", "Missing user_id", "Missing text", then unknown user 404, each with the table unchanged. Success gives 201 and adds one review holding every body key, with `id` and `place_id` both set to the new id. |
| Rules.CreatePlaceOrder | api/v1/views/places.py:82-99 | Unknown city gives 404 before any body check. Then "Not a JSON", "Missing user_id", unknown user 404, "Missing name". Success adds one place with `city_id` set to its own id. |
| Rules.CreateCityOrder | api/v1/views/cities.py:81-93 | Unknown state gives 404 before any body check. Then "Not a JSON", "Missing name". Success adds one city with `state_id` set to its own id. |
| Rules.CreateUserOrder | api/v1/views/users.py:75-85 | "Not a JSON", then "Missing email", then "Missing password"; no existence check. Success adds one user with every body key. |
| Rules.CreateNamedOrder | api/v1/views/states.py:67-73 | For State, and alike for Amenity (amenities.py:73-81): "Not a JSON", then "Missing name". Success adds one object with every body key. |
| Rules.CreateAddsOne | api/v1/views/places_reviews.py:97-100 | A create writes only when it answers 201, and then adds exactly one object of its kind under a fresh id. The count of that kind grows by one, a get of the new id returns it, other kinds are untouched, and ids stay consistent. |
| Rules.CreatedChildLinkedToItself | api/v1/views/cities.py:90-91 | After a child create, the children of any parent p are the previous ones plus the new object exactly when p is the new object's own id. |
| Rules.FailuresAreNot201 | api/v1/views/places_reviews.py:84-96 | Every failing create check answers 404 or 400. |
| Rules.UpdateOrder | api/v1/views/states.py:88-92 | The five copying updates answer "Not a JSON" whatever the id. The State update answers 404 whatever the body. A rejected update leaves the table unchanged, and a passing one writes only the target object. |
| Rules.UpdateCopies | api/v1/views/places_reviews.py:122-124 | A copying update keeps the protected keys and the unmentioned keys, and sets every other body key verbatim. The new key set is the old one plus the unprotected body keys. |
| Rules.UpdateStateNameOnly | api/v1/views/states.py:93-94 | The State update sets `name` to the body's `name`, or to null; every other attribute is unchanged. |
| Rules.UpdateKeepsWellFormed | api/v1/views/places_reviews.py:122-125 | No update changes an object's `id`. |
| Rules.DeleteThenGone | api/v1/views/places_reviews.py:59-64 | Delete of an unknown id gives 404 with no change. Otherwise `{}`, with exactly that object removed and other kinds untouched (no cascade). A following get or delete of the same id gives 404. |

## Left out

- Routing, blueprints, `strict_slashes`, `jsonify`/`make_response` and the `abort` mechanism are left out: their outcome is the returned `Response`.
- Body parsing is left out: the body arrives already parsed as an optional JSON object. The framework's own errors for malformed JSON or a wrong content type are not modelled. The create views and the five copying updates call `request.get_json()` before any lookup, so there such an error would come before the 404 of a missing parent or object. The State update looks the state up first (states.py:88) and reads the body afterwards (states.py:91), so there it would come after the 404. The get, list and delete views never read a body.
- A body that parses to a JSON value other than an object is not modelled. Such bodies behave as follows in the source:
  - A falsy one (`0`, `false`, `""`, `[]`) answers "Not a JSON" through `if not data`.
  - For a non-empty list or string, the key tests (`"name" not in data`) are a membership or substring test and raise nothing. So `["x"]` sent to POST /amenities answers 400 "Missing name" (amenities.py:76-77).
  - A list or string that passes every key test fails later with a 500: in `Cls(**data)`, in `data['user_id']` (places_reviews.py:94, places.py:91), or in `data.items()` / `.get` in the updates.
  - A number or `true` fails at its first key test with a 500.
- The storage engine, `save()`/`close()` persistence, the file and database backends and the teardown hook are left out. The store is an in-memory table.
- uuid4 id generation is modelled by `ObjectStore.FreshId`. It keeps its never-repeat property: the store remembers every (kind, id) it has issued (`ObjectStore.issued`) and hands out a non-empty id outside that set. It does not keep the uuid format or the randomness: ids are built deterministically.
- The model classes (`models/`) are not part of this model. The model assumes the constructor builds the object from every body key, with the object's own fresh `id`. Timestamps (`created_at`, `updated_at`) are ordinary attributes that the model neither stamps nor refreshes. The `__class__` key, datetime formatting and the other details of `to_dict` are left out: a serialised object is its record.
- The relationship properties `State.cities`, `City.places` and `Place.reviews` are modelled as "the children whose link attribute holds the parent id" (`Relations.Members`). A child without the attribute belongs to no parent.
- Views.CopyAttrs, Reviews.PutReview, Places.PutPlace, Cities.PutCity, Users.PutUser, Amenities.PutAmenity: Python's special attributes, which `setattr` rejects, are not modelled; every body key is a plain record entry. `setattr(obj, "__class__", "X")` raises TypeError, and so does `"__dict__"` with a value that is not a dict; the source then ends the request with a 500, while the model answers 200 and stores the key.
- Reviews.PostReview, Places.PostPlace: a `user_id` that is not a JSON string is treated as naming no user (404), because the storage gateway's handling of such a key is not shown.
- Models.Value: JSON numbers are integers only; floating-point values are not modelled.
- api/v1/app.py (app construction, CORS, environment variables, `app.run`) is process plumbing; only its 404 body is kept, as `Http.NotFound`.
- Rendering a 400 as the framework's default error page is not modelled; the model keeps the description only.
- Listing order is not fixed: it is whatever `storage.all(...)` or the relationship property (`pl.reviews`, `ct.places`, `st.cities`) returns, and both are outside this model. The list methods return the order of the run as a ghost sequence and promise only that it enumerates the right objects once each.
- Several views pass the class name as a string (`storage.get("User", ...)`, `storage.get("Review", ...)`, the `classes` table of the stats route). The model assumes the storage gateway resolves a name exactly like the class itself; the gateway is not part of this model.
