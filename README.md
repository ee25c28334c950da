# SpringBoot-Hibernate user service: utilities and data-access core

This project models the core of a small Spring Boot / Hibernate CRUD service
and proves properties of that model. The core has two parts.

- **`Util`** holds the request and value helpers:
  - the tolerant ISO-8601 date-time parser (PostgreSQL-style text is
    normalised, then three `java.time` parsers are tried in turn);
  - the conversion of an arbitrary object to a `LocalDateTime`;
  - the recursive pretty-printer `dump` and its `indent` helper;
  - the choice of a sort order from the request parameters;
  - the client address behind a proxy (`X-FORWARDED-FOR`);
  - the decision to answer in JSON.
- **`AbstractDao` / `UserDao`** form the generic persistence gateway and its
  user specialisation. The Hibernate session is a finite map from identifier
  to entity, plus the next identifier the generator hands out.

Modules, one file each:

| file | module | models |
|---|---|---|
| `wrappers.dfy` | `Wrappers` | `Option`, `Result`, `Outcome`: Java's null returns and thrown exceptions |
| `date_util.dfy` | `DateUtil` | `dateTimeFromISO8601`, `dateTimeFromObject` |
| `dump_util.dfy` | `DumpUtil` | `dump`, `indent` |
| `request_util.dfy` | `RequestUtil` | `getSortingList`, `getClientIpAddress`, `useJsonResponse` |
| `dao.dfy` | `Dao` | class `AbstractDao<T>` and the id ordering and pagination it relies on |
| `user_dao.dfy` | `Users` | class `UserDao` over an `AbstractDao<User>` |

Modelling choices:

- **Library code as parameters.** The `java.time` parsers and conversions
  are library code. They are fields of a `TimeLibrary` value: each parser
  returns `None` where the real one throws `DateTimeParseException`.
- **Objects for `dump`.** The printer works on a `Value` datatype. An entity
  is the list of the properties its getters returned. The loop at
  `Util.java:283-286` sets `hasGetId` for every public method, because the
  `if` on line 284 has an empty body. So every object that is not null, a
  string, a number, a list, a set or a map goes through the property-map
  branch. The model renders such an object that way too, and the `toString`
  branch (lines 316-319) cannot be reached.
- **Spec functions and imperative code.** `Render` specifies the text of
  `dump`. The methods `DumpAt`, `WriteItems`, `WriteEntries` and `Indent`
  keep the source's StringBuilder loops and are proved equal to it.
  Likewise `NormaliseIso8601` keeps the character-array rewrite and is
  proved equal to `Normalised`.
- **The entity class.** Reflection cannot be modelled, so `AbstractDao<T>`
  receives an explicit `EntityClass`: the identifier getter, and the entity
  after Hibernate assigns it a generated identifier.
  - `create` is Hibernate `save`: the store assigns the next identifier.
  - `update` of a missing row fails (`StaleState`).
  - `delete` of a missing row fails (`ObjectNotFound`), as the lazy `load`
    proxy does.
- **Pagination.** `getAll(offset, limit)` is two queries. Phase one selects
  the distinct ids in ascending order, skips `offset * limit - limit` of
  them and keeps at most `limit` (`PageIds`). Phase two re-selects the rows
  with those ids. The ascending order added on line 91 is never removed, so
  phase two returns the page in the same order (`PhaseTwoKeepsPageOrder`).
- **UserDao.** `UserDao extends AbstractDao<User>` becomes a class holding
  the inherited store state (`store`). Its methods delegate to it as the
  subclass methods delegate to `super`. `update` is the deliberate no-op of
  the source.

## Model

| member | source | states |
|---|---|---|
| DateUtil.WithDelimiter | src/main/java/app/util/Util.java:341-346 | a space at index 10 of a text longer than 10 becomes 'T'; the length and every other character are unchanged; otherwise the text is unchanged |
| DateUtil.Normalised | src/main/java/app/util/Util.java:341-361 | the normalised text extends the delimiter-fixed text; it is three characters longer exactly when that text ends in a sign and two digits, and the three characters are ":00" |
| DateUtil.NormaliseIso8601 | src/main/java/app/util/Util.java:341-361 | the character-array rewrite and the conditional append produce exactly the normalised text |
| DateUtil.NormalisedIsFixedPoint | src/main/java/app/util/Util.java:341-361 | normalising twice is normalising once |
| DateUtil.PostgresStyleParsesAsIso | src/main/java/app/util/Util.java:338-361 | "2024-01-02 03:04:05+05" normalises to "2024-01-02T03:04:05+05:00", so both parse alike whatever the parsers |
| DateUtil.ParseNormalised | src/main/java/app/util/Util.java:363-381 | success iff the date-time or the date parser accepts, or the zoned parser accepts and its instant fits a LocalDateTime; a date-time wins, else the date at midnight, else the zoned time in UTC; a zoned time out of range fails with the conversion's DateTimeException; otherwise the "not provided in any supported ISO-8601 format" error carrying the normalised text |
| DateUtil.DateTimeFromIso8601 | src/main/java/app/util/Util.java:333-382 | null input is the "ISO-8601 string is null." error; other text is normalised, then goes through the fallback chain; when the date parser accepts only ISO dates it never sees the normalised text, so the date-at-midnight case of the chain cannot arise through this operation (see "## Findings") |
| DateUtil.NormalisedIsNeverADate | src/main/java/app/util/Util.java:351-361 | no normalised text has the shape of an ISO date: a trailing '-' and two digits are always completed with ":00" |
| DateUtil.DateFallbackUnreachable | src/main/java/app/util/Util.java:351-361 | as written, "2024-01-02" normalises to "2024-01-02:00"; a date parser that accepts only ISO dates rejects every normalised text, so parsing succeeds only through the date-time or zoned parser |
| DateUtil.BareDateParsesAtMidnight | src/main/java/app/util/Util.java:326-329 | with the intended normalisation a bare ISO date is left unchanged and, when it is not a date-time, parses as that date at midnight |
| DateUtil.NormalisedWithTimeKeepsOffsets | src/main/java/app/util/Util.java:348-361 | the intended normalisation agrees with the one as written on every text with a time part, and still turns "2024-01-02 03:04:05+05" into "2024-01-02T03:04:05+05:00" |
| DateUtil.DateTimeFromObject | src/main/java/app/util/Util.java:405-428 | a string is parsed, and a parse failure is re-reported against the caller's text while an out-of-range DateTimeException passes through; a LocalDateTime is returned unchanged; a number is epoch milliseconds in UTC; another class is an error naming it; null is a NullPointerException |
| DumpUtil.Indent | src/main/java/app/util/Util.java:194-200 | exactly four spaces per level, nothing for a level below one |
| DumpUtil.DumpAt | src/main/java/app/util/Util.java:203-322 | the text built by the recursive StringBuilder code is the rendering of the value at that level (the source's text when no non-null object is reached twice below the root; see "## Left out") |
| DumpUtil.WriteItems | src/main/java/app/util/Util.java:227-238 | the element loop of a list or set writes each element on its own line, indented one level deeper, with a comma after all but the last |
| DumpUtil.WriteEntries | src/main/java/app/util/Util.java:264-276 | the entry loop of a map writes "key: value" lines the same way |
| DumpUtil.Dump | src/main/java/app/util/Util.java:190-192 | dump(object) is the rendering at level zero |
| DumpUtil.EntityRendering | src/main/java/app/util/Util.java:279-315 | an entity with no readable property renders as {}; otherwise as a map: after "{\n", one line per property, indented one level deeper, holding the quoted property name, ": " and the value rendered one level deeper, with a comma after every line but the last; then '}' at the entity's own indentation |
| DumpUtil.DumpAtoms | src/main/java/app/util/Util.java:215-262 | null renders as null, a string in double quotes, a number as its text; an empty list, set, map or entity as [], <>, {} and {} |
| DumpUtil.LastItemLine | src/main/java/app/util/Util.java:228-237 | the last element's line has no comma and ends in a newline |
| DumpUtil.InnerItemLine | src/main/java/app/util/Util.java:228-237 | every element line before the last ends in ",\n" |
| DumpUtil.ClosingDelimiters | src/main/java/app/util/Util.java:238-278 | a non-empty list closes with "\n]" (not indented); a set closes with its own indentation then '>'; a map or entity with its own indentation then '}' |
| RequestUtil.SortingList | src/main/java/app/util/Util.java:435-452 | an order iff the request exists and both customSortParam and dir are present and non-empty; on that property, descending iff dir spells "desc" in any case |
| RequestUtil.FieldsEmptyIffOnlyCommas | src/main/java/app/util/Util.java:457 | every comma-separated piece is empty iff the text is nothing but commas |
| RequestUtil.DropTrailingEmptyIsEmpty | src/main/java/app/util/Util.java:457 | dropping trailing empty pieces leaves nothing iff every piece is empty |
| RequestUtil.ClientIpAddress | src/main/java/app/util/Util.java:454-463 | without the X-FORWARDED-FOR header, the remote address; with it, the header's text up to (not including) its first comma; the index-0 ArrayIndexOutOfBounds failure iff the header is non-empty and nothing but commas |
| RequestUtil.SplitOnCommaHead | src/main/java/app/util/Util.java:457 | split(",") yields nothing iff the text is non-empty and only commas; otherwise its first element is the text before the first comma |
| RequestUtil.UseJsonResponse | src/main/java/app/util/Util.java:166-181 | true iff there is an Accept header and it lists application/json and not text/html |
| Dao.AscendingMembers | src/main/java/app/dao/AbstractDao.java:88-92 | the ascending id list holds exactly the stored ids, as many as there are |
| Dao.AscendingIncreases | src/main/java/app/dao/AbstractDao.java:91 | the ascending id list is strictly increasing |
| Dao.AscendingIsSorted | src/main/java/app/dao/AbstractDao.java:88-92 | the distinct ids in ascending order: each stored id once, strictly increasing |
| Dao.AscendingOfSorted | src/main/java/app/dao/AbstractDao.java:93-98 | ordering the elements of an already ascending list by id gives the list back |
| Dao.FirstResultIsProduct | src/main/java/app/dao/AbstractDao.java:89 | the first result of page offset is offset * limit - limit, i.e. limit rows per earlier page |
| Dao.FirstResultOf | src/main/java/app/dao/AbstractDao.java:89 | the product computed as the source writes it is the first result of the page |
| Dao.WindowContents | src/main/java/app/dao/AbstractDao.java:89-90 | setFirstResult/setMaxResults keep at most limit elements, those from the first result on, all of them in range, none when the first result is past the end |
| Dao.PageIds | src/main/java/app/dao/AbstractDao.java:88-92 | a page holds at most limit ids |
| Dao.PageIsSorted | src/main/java/app/dao/AbstractDao.java:88-92 | a page holds stored ids in strictly increasing order, and is empty iff the first result is past the last id |
| Dao.PageIsWindow | src/main/java/app/dao/AbstractDao.java:88-92 | the page is the run of ascending ids starting at index offset * limit - limit: each page id is at its place, and every id in that range is on the page |
| Dao.PagesAreAdjacent | src/main/java/app/dao/AbstractDao.java:89-90 | pages offset and offset+1 together are the window of 2 * limit ids at the first result of page offset |
| Dao.NextPageIsHigher | src/main/java/app/dao/AbstractDao.java:89-91 | every id of page offset is below every id of page offset+1, so consecutive pages are disjoint |
| Dao.PhaseTwoKeepsPageOrder | src/main/java/app/dao/AbstractDao.java:93-98 | re-selecting the stored rows whose id is on the page, ordered by id, gives exactly the page |
| Dao.PageIdsQuery | src/main/java/app/dao/AbstractDao.java:88-92 | phase one's query result is the page of ids |
| Dao.ReselectQuery | src/main/java/app/dao/AbstractDao.java:93-98 | phase two's ids are the page of ids, in the same order |
| Dao.AbstractDao.constructor | src/main/java/app/dao/AbstractDao.java:35-37 | a gateway for an entity class starts with an empty table |
| Dao.AbstractDao.TotalCount | src/main/java/app/dao/AbstractDao.java:43-51 | the count is the number of stored entities, which is the number of distinct ids |
| Dao.AbstractDao.Get | src/main/java/app/dao/AbstractDao.java:53-58 | the stored entity with that id (whose id getter returns it), null iff absent; nothing changes |
| Dao.AbstractDao.GetAll | src/main/java/app/dao/AbstractDao.java:60-68 | every stored entity exactly once: as many as there are rows, each stored under its own id, no id twice |
| Dao.AbstractDao.GetAllByIds | src/main/java/app/dao/AbstractDao.java:70-81 | one slot per given id, in the given order; slot i holds the entity of ids[i], null iff it is absent |
| Dao.AbstractDao.GetPage | src/main/java/app/dao/AbstractDao.java:83-101 | at most limit stored entities, their ids exactly the page of ids in order, each entity the stored one |
| Dao.AbstractDao.Create | src/main/java/app/dao/AbstractDao.java:103-107 | the entity is stored under a fresh generated id, which it receives; no other row changes |
| Dao.AbstractDao.Update | src/main/java/app/dao/AbstractDao.java:109-113 | the row with the entity's id is replaced and no other; a missing row fails with a stale-state error and changes nothing |
| Dao.AbstractDao.Delete | src/main/java/app/dao/AbstractDao.java:115-121 | the row is removed and no other; a missing row fails with object-not-found and changes nothing |
| Users.UserDao.constructor | src/main/java/app/dao/UserDao.java:13-15 | a user gateway starts with an empty table of users |
| Users.UserDao.Save | src/main/java/app/dao/UserDao.java:17-19 | exactly the effect of create: the user is stored under the next id, which it receives |
| Users.UserDao.Delete | src/main/java/app/dao/UserDao.java:21-23 | delete by the user's id only: the row with that id is removed, or ObjectNotFound if there is none |
| Users.UserDao.GetAll | src/main/java/app/dao/UserDao.java:25-33 | every stored user exactly once; nothing changes |
| Users.UserDao.GetByEmail | src/main/java/app/dao/UserDao.java:35-39 | null iff no user has the email; the one user iff exactly one has it; a NonUniqueResult failure with the count iff two different users have it |
| Users.UserDao.GetById | src/main/java/app/dao/UserDao.java:41-43 | exactly get(id) |
| Users.UserDao.Update | src/main/java/app/dao/UserDao.java:45-48 | the store is unchanged |

## Left out

- Reflection is not modelled: `getFirstGenericParameter`, `getObjectId` and `getObjectVersion` (Util.java:32-107), and the bean introspection in `dump`. An entity is given as the properties its getters returned. A getter that throws is skipped in the source, so such a property is simply absent from the list.
- DumpUtil.DumpAt: the `visited` set of `dump` (Util.java:204-212) is not modelled. Below the root, `dump` records the identity hash of every non-null object it reaches and prints "XXX" on any second visit, whether or not there is a cycle: a cached boxed integer repeated in a list, a `Boolean` constant, an interned string literal or an entity referenced twice all print "XXX" the second time (`dump(Arrays.asList(1, 1))` is "[\n    1,\n    XXX\n]"). Values have no object identity, so the model equals `dump` only when no non-null object, by identity hash, is reached twice below the root; elsewhere it prints the repeated value in full.
- The "ERR" result of an introspection failure in `dump` (Util.java:295-298) is not modelled, since introspection is not.
- `HashMap`/`HashSet` iteration order is not modelled: a `Set` or `Map` value lists its elements in the order the iteration visits them, and so does an entity's property list.
- Number formatting is not modelled: a `Num` carries the text `StringBuilder.append(Number)` produces.
- The `java.time` parsers, `dateTimeFromMilliseconds` (Util.java:388-400) and the zoned-to-UTC conversion are parameters of the model (`TimeLibrary`), not definitions; the conversion may report the `DateTimeException` of an instant beyond year 999999999. `Number.longValue()` is taken as given.
- DateUtil.WithDelimiter: Java's `length()` and `charAt` count UTF-16 code units, while the model's strings are sequences of Unicode scalar values. With a supplementary character (an emoji, say) before index 10, the source tests and rewrites a different position than the model; `"😀23456789 X"` gets its space rewritten to 'T' in Java and is left unchanged by the model. DateUtil.HasHourOffset, DateUtil.Normalised and DateUtil.NormaliseIso8601 inherit this, and so does the text carried by the parse error. The model agrees with the source on text made of characters of the Basic Multilingual Plane.
- `isJsonRequest` (Util.java:147-155) is not modelled: it is only Spring's parse of the Content-Type header and an equality test.
- RequestUtil.UseJsonResponse: Spring's parse of the Accept header, and its media-type equality, are not modelled. The decision is taken over the parsed list with structural equality.
- Servlet header names are case-insensitive; the model looks headers up by the exact name the source uses.
- RequestUtil.ClientIpAddress: a null request, for which the source throws NullPointerException, is not modelled.
- RequestUtil.SortingList: `toLowerCase` is modelled on ASCII letters. That is exact for the comparison with "desc": no other character lower-cases to one of its letters.
- Hibernate, SQL and transactions are not modelled. This covers criteria and SQL generation (in particular, for a page past the last id, phase two of `getAll(offset, limit)` adds `Restrictions.in("id", uniqueSubList)` with an empty list at AbstractDao.java:96, which Hibernate may turn into an `id in ()` that the database rejects; Dao.AbstractDao.GetPage returns an empty page there), `@Transactional`, the `EntityManager`, flush timing, and the lazy `load` proxy (its failure is modelled as the failure of `delete`).
- Dao.AbstractDao.GetPage: requires offset >= 1 and limit >= 1. A zero or negative offset gives a negative first result, and a limit of zero or less is read by Hibernate as "no maximum"; neither is modelled. Java `int` overflow of `offset * limit` is not modelled either.
- Dao.AbstractDao.GetAllByIds: the ids are a sequence of integers, so the `NullPointerException` that unboxing a null element of the `Iterable<Integer>` throws (AbstractDao.java:74) is not modelled.
- Dao.AbstractDao.GetAll: the query sets no order. The model lists rows by ascending id, but the contract promises only that every stored entity appears exactly once.
- Dao.AbstractDao.Create: identifier generation is a counter starting at 1; the actual generator strategy of the entity is not modelled. Identifiers are unbounded integers.
- The patch exception classes (AbstractDao.java:126-180) are not modelled: they are declared and never used.
- UserDao inherits from AbstractDao; the model holds the inherited state in a field instead, since class inheritance with overriding is not modelled. Inherited operations that UserDao does not override (`get`, `getAll(ids)`, `getAll(offset, limit)`, `getToTalCount`, and `delete(int)`, which `delete(User)` only overloads) are reached through that field. The two operations UserDao overrides, `update` and `getAll()`, must not be called through `store` on a user gateway: in Java the override hides them, and in particular `store.Update` performs a real update that no caller of a `UserDao` can reach.
- The `User` entity class is not part of this model beyond its id and email. Its other columns are an uninterpreted map.
- The controller, application bootstrap, `NotFoundException` and the commented-out `ModelInterceptor` are framework plumbing and are not modelled.

## Findings

| source | as written | input that shows it | evidently intended | confidence | as-written member | corrected member |
|---|---|---|---|---|---|---|
| src/main/java/app/util/Util.java:351-361, 367-369 | the offset tolerance appends ":00" to any text ending in a sign and two digits, and every ISO date ends in '-' and two digits, so `LocalDate.parse` never receives a date and the "just a date" fallback promised at lines 326-329 never succeeds | "2024-01-02" becomes "2024-01-02:00" and the parse fails with "DateTime not provided in any supported ISO-8601 format." | complete the offset only when the text has a time part, so that a bare date reaches `LocalDate.parse` unchanged and gives that date at midnight | high (proved; not executed) | DateUtil.DateFallbackUnreachable | DateUtil.BareDateParsesAtMidnight |

The operations `DateTimeFromIso8601` and `DateTimeFromObject` keep the
normalisation as written. `NormalisedWithTime` is the corrected normalisation:
`BareDateParsesAtMidnight` proves a bare date parses at midnight under it, and
`NormalisedWithTimeKeepsOffsets` proves it keeps the PostgreSQL tolerance for
date-times.
