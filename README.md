# gadjit access-request engine, modelled in Dafny

gadjit reviews pending access requests in an identity-governance (IGA)
system and decides what to do with each one.

- An IGA connector retrieves the requests. Here that is the ConductorOne
  connector that runs on a schedule.
- Every enabled scoring plugin scores each request. The built-in scorer is
  the profile-proximity scorer. It asks a language model (LLM) which current
  members of the entitlement resemble the requester. It measures the
  resemblance by the ratio of shared words, and scales the result by the
  model's estimate of how well the requester fits the entitlement.
- The workflow `run` combines the scores into two flags and a rounded mean.
  It then chooses, in strict precedence, among rejection, manual review and
  approval, and renders the comment for that choice.

This project models that core and proves what it promises:

| module | file | models |
|---|---|---|
| `Wrappers` | wrappers.dfy | `Option`, and `Result` over the Python exceptions the code raises |
| `Text` | text.dfy | the string methods the code uses: `lower`, `split()`, `strip`, `startswith`, `find`, `split(sep)`, `join`, `replace(pat, "")` |
| `Dicts` | dicts.dfy | insertion-ordered dictionaries as association lists: `get`, assignment, `pop` |
| `JsonValue` | json.dfy | JSON-like values, Python truthiness, `.get` on a value that may not be a dictionary, `json.loads` as a parameter |
| `Models` | models.dfy | the domain records and the base plugins (gadjit/models.py) |
| `Scores` | scores.dfy | `sum`, the mean, `sorted(..., reverse=True)[:3]` |
| `Proximity` | proximity.dfy | the profile-proximity scorer |
| `Utils` | utils.dfy | `process_env_variables` and `plugins_run_function` (gadjit/utils.py) |
| `Gadjit` | gadjit.dfy | `run` (gadjit/__main__.py) |
| `EnvConfig` | envconfig.dfy | `_config_from_environment` (gadjit/__main__.py) |
| `ConductorOneCron` | conductorone.dfy | the ConductorOne cron connector (plugins/iga/conductorone_cron/plugin.py) |

How the modelling is shaped:

- Python's `dict` remembers insertion order, and the code depends on that
  order: in the member listing, in the tally, and in which error surfaces
  first. Dictionaries are therefore association lists, and `Put` appends a
  new key at the end.
- Stateful code becomes methods whose contracts tie them to specification
  functions. Examples:
  - the loops of `run`, `process_env_variables`, `plugins_run_function`,
    `_config_from_environment` and `compute_scores`;
  - the token cache of the connector;
  - the connector's calls, which go to the server and are appended to a
    call log.
- The base plugin classes, which only raise NotImplementedError, become
  datatypes. A plugin that does answer becomes an alternative carrying the
  function it answers with.

Notes on the code as written, which the model follows:

- `run` approves nothing and denies nothing.
- Of the three comments, `run` sends only the rejection comment. The
  approval and denial calls and the other two comments are commented out.
- An overlap query without an answer returns `None`. Iterating over `None`
  then raises TypeError, so `run` stops there.
- The relationship score scales the sub-score only when it is truthy. A
  relationship score of 0 therefore leaves the score unscaled.
- With nothing tallied the sub-score is still the integer 0. A relationship
  score that is a string or a list then gives `""` or `[]`, which only fails
  when `run` compares it with 0, once every scorer has run.
- The member listing is one `id: value` line per member, in reverse
  dictionary order.
- The shared-words ratio is also 0 when either string is empty. This holds
  even when the other string has words.
- `run` calls `compute_scores` on every scoring plugin.
- The connector's search looks back 16 hours, although its variable is
  named `one_minute_ago`.

## Model

| member | source | states |
|---|---|---|
| Text.Lower | gadjit/plugins/scoring/requester_profile_attribute_proximity/plugin.py:397-398 | lower-casing keeps the length and maps every character through the ASCII case mapping |
| Text.LowerIdempotent | gadjit/__main__.py:155 | lower-casing twice is lower-casing once |
| Text.Split | gadjit/plugins/scoring/requester_profile_attribute_proximity/plugin.py:397-398 | every word of `split()` is non-empty and holds no whitespace |
| Text.SplitWord | gadjit/plugins/scoring/requester_profile_attribute_proximity/plugin.py:397 | a single word splits to itself |
| Text.SplitAtSpace | gadjit/plugins/scoring/requester_profile_attribute_proximity/plugin.py:397 | splitting at a whitespace character splits both sides independently |
| Text.Strip | gadjit/plugins/scoring/requester_profile_attribute_proximity/plugin.py:428-431 | `strip()` is no longer than its input and neither starts nor ends with whitespace |
| Text.StripIdempotent | gadjit/plugins/scoring/requester_profile_attribute_proximity/plugin.py:428-431 | stripping twice is stripping once |
| Text.StripNoEdges | gadjit/__main__.py:155 | a text without surrounding whitespace is its own strip |
| Text.StripWrapped | gadjit/plugins/scoring/requester_profile_attribute_proximity/plugin.py:428 | one whitespace character on each side of such a text is removed |
| Text.IndexFrom | gadjit/plugins/scoring/requester_profile_attribute_proximity/plugin.py:423 | the search from a position finds the first occurrence at or after it, and none exists when it finds nothing |
| Text.IndexOf | gadjit/plugins/scoring/requester_profile_attribute_proximity/plugin.py:423 | the first occurrence of a pattern, or no occurrence at all |
| Text.JoinSplitBy | gadjit/__main__.py:196 | joining the pieces of `split(sep)` with `sep` gives the string back |
| Text.SplitByJoin | gadjit/plugins/scoring/requester_profile_attribute_proximity/plugin.py:220-222 | splitting on a one-character separator undoes joining with it when no piece contains it |
| Text.RemoveAll | plugins/iga/conductorone_cron/plugin.py:186-189 | removing every occurrence of a pattern never lengthens the text; `RemoveAllSplit` states what is removed |
| Text.RemoveAllAbsent | plugins/iga/conductorone_cron/plugin.py:189 | a text without the pattern is unchanged |
| Text.RemoveAllSuffix | plugins/iga/conductorone_cron/plugin.py:189 | a name that ends in ` Group Member`, with no earlier occurrence, loses exactly that suffix |
| Text.RemoveAllFirst | plugins/iga/conductorone_cron/plugin.py:189 | in `x + pat + y`, where `pat` first occurs right after `x`, `x` is kept, that occurrence is removed and the removal goes on in `y` |
| Text.RemoveAllSplit | plugins/iga/conductorone_cron/plugin.py:189 | `s.replace(pat, "")` is `"".join(s.split(pat))`: every occurrence found from the left without overlap is removed, and the text between them is kept in order |
| Dicts.Get | gadjit/__main__.py:106 | `d.get(k)` finds a value exactly when the key is present |
| Dicts.KeysIndex | gadjit/plugins/scoring/requester_profile_attribute_proximity/plugin.py:68-71 | a key is present exactly when some entry holds it |
| Dicts.Put | gadjit/plugins/scoring/requester_profile_attribute_proximity/plugin.py:68-71 | `d[k] = v` sets `k` to `v`, leaves every other key unchanged, adds `k` to the keys, and appends a new key at the end |
| Dicts.PutUnique | gadjit/plugins/scoring/requester_profile_attribute_proximity/plugin.py:68-71 | assignment keeps the keys unique |
| Dicts.Remove | plugins/iga/conductorone_cron/plugin.py:202 | `d.pop(k, None)` removes `k`, leaves every other key unchanged and does nothing when `k` is absent |
| Dicts.RemoveKeepsOrder | plugins/iga/conductorone_cron/plugin.py:202 | in a dictionary with unique keys, popping the key held at position `i` deletes exactly that entry; the entries before and after it stay in their order |
| Dicts.RemoveUnique | plugins/iga/conductorone_cron/plugin.py:202 | removal keeps the keys unique |
| Dicts.Values | gadjit/plugins/scoring/requester_profile_attribute_proximity/plugin.py:87 | `list(d.values())` has one value per entry, in order |
| JsonValue.GetAttr | plugins/iga/conductorone_cron/plugin.py:106 | `.get` works only on a dictionary (AttributeError otherwise) and finds a value exactly when the key is present |
| JsonValue.GetAttrOr | plugins/iga/conductorone_cron/plugin.py:114-117 | `.get(key, default)` works only on a dictionary |
| JsonValue.GetAttrOrNull | plugins/iga/conductorone_cron/plugin.py:107 | `.get(key)`, with a missing key read as `None`, works only on a dictionary |
| JsonValue.Decode | gadjit/plugins/scoring/requester_profile_attribute_proximity/plugin.py:163-168 | decoding fails with JSONDecodeError exactly when `json.loads` rejects the text |
| JsonValue.HashKey | gadjit/plugins/scoring/requester_profile_attribute_proximity/plugin.py:68 | a list or a dictionary cannot be a dictionary key (TypeError); `True`/`False` are stored as 1/0 |
| JsonValue.OptString | plugins/iga/conductorone_cron/plugin.py:219 | an API value stored as an optional string must be a string or `null` |
| Models.NewRequester | gadjit/models.py:201-236 | every argument is stored unchanged, and `title_and_department` is `f"{title}, {department}"` |
| Models.TitleAndDepartmentParts | gadjit/models.py:233 | the combined field is the title, `", "`, then the department, so both can be read back |
| Models.NewAccessRequest | gadjit/models.py:252-274 | every argument is stored unchanged, and `iga_metadata` defaults to an empty mapping |
| Models.BaseIgaPlugin.RetrieveRequests | gadjit/models.py:21-33 | the base IGA plugin raises NotImplementedError with its message |
| Models.BaseIgaPlugin.CommentRequest | gadjit/models.py:35-49 | the base IGA plugin raises NotImplementedError with its message |
| Models.BaseIgaPlugin.ApproveRequest | gadjit/models.py:51-64 | the base IGA plugin raises NotImplementedError with its message |
| Models.BaseIgaPlugin.DenyRequest | gadjit/models.py:66-79 | the base IGA plugin raises NotImplementedError with its message |
| Models.LlmPlugin.Query | gadjit/models.py:102-115 | the base LLM plugin raises NotImplementedError; an answering plugin returns its own answer to the prompt |
| Models.BaseScoringPlugin.Score | gadjit/models.py:138-148 | the base scoring plugin raises NotImplementedError with its message |
| Scores.SumBounds | gadjit/__main__.py:103 | a sum of values between two bounds lies between the bounds times the count |
| Scores.Mean | gadjit/__main__.py:103 | the mean times the count is the sum, and an empty list has mean 0 |
| Scores.MeanBounds | gadjit/plugins/scoring/requester_profile_attribute_proximity/plugin.py:90-92 | a mean lies between the least and the greatest bound of its values |
| Scores.InsertDesc | gadjit/plugins/scoring/requester_profile_attribute_proximity/plugin.py:87 | inserting adds exactly the one value |
| Scores.InsertDescSorted | gadjit/plugins/scoring/requester_profile_attribute_proximity/plugin.py:87 | inserting into a descending list keeps it descending |
| Scores.SortDesc | gadjit/plugins/scoring/requester_profile_attribute_proximity/plugin.py:87 | `sorted(reverse=True)` is descending and a permutation of its input |
| Scores.TopThreeSpec | gadjit/plugins/scoring/requester_profile_attribute_proximity/plugin.py:87 | the top three are `min(3, n)` values of the list, descending, and no value left out is larger than any value kept |
| Scores.PrefixSplit | gadjit/plugins/scoring/requester_profile_attribute_proximity/plugin.py:87 | a descending list splits into a head whose values bound everything after it |
| Scores.TopThreeMeanLower | gadjit/plugins/scoring/requester_profile_attribute_proximity/plugin.py:86-92 | the mean of the top three is at least a lower bound of all values, and 0 when there are none |
| Proximity.SharedWordsPercentage | gadjit/plugins/scoring/requester_profile_attribute_proximity/plugin.py:381-409 | the ratio lies in [0, 1]; it is 0 when either string is empty; otherwise it is \|A∩B\|/\|A∪B\| of the lower-cased words of two or more characters, and 0 when both sets are empty |
| Proximity.JaccardBounds | gadjit/plugins/scoring/requester_profile_attribute_proximity/plugin.py:400-409 | the Jaccard ratio of two sets lies in [0, 1] |
| Proximity.SharedWordsSymmetric | gadjit/plugins/scoring/requester_profile_attribute_proximity/plugin.py:392-409 | the ratio does not depend on the order of its arguments |
| Proximity.SharedWordsOne | gadjit/plugins/scoring/requester_profile_attribute_proximity/plugin.py:397-409 | for two non-empty strings the ratio is 1 exactly when both have the same non-empty word set |
| Proximity.SharedWordsZero | gadjit/plugins/scoring/requester_profile_attribute_proximity/plugin.py:397-409 | for two non-empty strings the ratio is 0 exactly when they share no word |
| Proximity.ItemPercentage | gadjit/plugins/scoring/requester_profile_attribute_proximity/plugin.py:64-67 | a member's field that is truthy but not a string makes `lower` fail; otherwise the ratio lies in [0, 1] |
| Proximity.RemoveJsonMarkdownFenced | gadjit/plugins/scoring/requester_profile_attribute_proximity/plugin.py:422-433 | the content of the first fenced json block is extracted and stripped, whatever follows the block; the content may hold backticks, as JSON strings do, but no closing fence and no trailing backtick, and nothing before the block holds a backtick |
| Proximity.RemoveJsonMarkdownAt | gadjit/plugins/scoring/requester_profile_attribute_proximity/plugin.py:423-428 | the captured group runs from after the first `` ```json `` to the next `` ``` `` (non-greedy, across lines) |
| Proximity.RemoveJsonMarkdownPlain | gadjit/plugins/scoring/requester_profile_attribute_proximity/plugin.py:429-431 | text without a `` ```json `` fence is only stripped, whatever other backticks it holds |
| Proximity.RemoveJsonMarkdownOwnLines | gadjit/plugins/scoring/requester_profile_attribute_proximity/plugin.py:422-433 | a block fenced on lines of its own unwraps to its content, when the content holds no closing fence |
| Proximity.ListingLinesSpec | gadjit/plugins/scoring/requester_profile_attribute_proximity/plugin.py:213-219 | the listing has one `id: value` line per member, in dictionary order |
| Proximity.FlattenMembers | gadjit/plugins/scoring/requester_profile_attribute_proximity/plugin.py:213-219 | the loop appends exactly one line per member, each the member's `id: value` line |
| Proximity.Reversed | gadjit/plugins/scoring/requester_profile_attribute_proximity/plugin.py:220-222 | `reversed` keeps the length and mirrors the positions |
| Proximity.MemberListingLines | gadjit/plugins/scoring/requester_profile_attribute_proximity/plugin.py:213-222 | the listing sent to the model reads back, line by line, as the members' `id: value` lines in reverse order |
| Proximity.MemberListingIgnoresEmails | gadjit/plugins/scoring/requester_profile_attribute_proximity/plugin.py:214-219 | the listing depends only on the profiles, never on the e-mail keys |
| Proximity.FieldOf | gadjit/plugins/scoring/requester_profile_attribute_proximity/plugin.py:129-142 | only `title_and_department` and `organizational_unit` are supported; any other type raises ValueError with its message |
| Proximity.ParseAnswer | gadjit/plugins/scoring/requester_profile_attribute_proximity/plugin.py:161-168 | an answer that does not decode after fence removal is re-raised as JSONDecodeError |
| Proximity.MatchMembers | gadjit/plugins/scoring/requester_profile_attribute_proximity/plugin.py:105-173 | no members gives `[]` before the type check or any query; an unsupported type raises; a falsy answer gives `None`; a decoding error is raised; a missing, null or falsy `overlap_users` gives `[]`; otherwise the parsed list |
| Proximity.MatchMembersIgnoresEmails | gadjit/plugins/scoring/requester_profile_attribute_proximity/plugin.py:213-219 | the overlap query depends only on the members' profiles |
| Proximity.MatchEntitlement | gadjit/plugins/scoring/requester_profile_attribute_proximity/plugin.py:361-379 | a falsy answer, or a missing or falsy `relationship_score`, gives `None`; a decoding error is raised; otherwise the parsed, truthy score |
| Proximity.Iterate | gadjit/plugins/scoring/requester_profile_attribute_proximity/plugin.py:63 | iterating over `None` or a scalar raises TypeError; a list yields its items |
| Proximity.Contribution | gadjit/plugins/scoring/requester_profile_attribute_proximity/plugin.py:63-71 | a successful match is a dictionary item whose key is hashable and whose ratio lies in [0, 1] |
| Proximity.Contributions | gadjit/plugins/scoring/requester_profile_attribute_proximity/plugin.py:63-84 | one ratio in [0, 1] per reported match, in order |
| Proximity.ContributionsPrefixErr | gadjit/plugins/scoring/requester_profile_attribute_proximity/plugin.py:63-84 | the first failing match ends the loop with its error |
| Proximity.ContributionsNext | gadjit/plugins/scoring/requester_profile_attribute_proximity/plugin.py:63-71 | one more match extends the contributions, or fails with its error |
| Proximity.TallyOfNext | gadjit/plugins/scoring/requester_profile_attribute_proximity/plugin.py:68-71 | one more contribution adds to its key's tally |
| Proximity.AddToSpec | gadjit/plugins/scoring/requester_profile_attribute_proximity/plugin.py:68-71 | `tally[k] = tally.setdefault(k, 0) + x` adds `x` to `k` only, and adds `k` to the keys |
| Proximity.TallyOfSum | gadjit/plugins/scoring/requester_profile_attribute_proximity/plugin.py:60-84 | a member's tally is its old value plus the sum of every occurrence of that member, in either list |
| Proximity.TallyOfKeys | gadjit/plugins/scoring/requester_profile_attribute_proximity/plugin.py:60-84 | the tally holds exactly the members it had and those that were reported |
| Proximity.ContributedKeysSpec | gadjit/plugins/scoring/requester_profile_attribute_proximity/plugin.py:63-84 | a key is contributed to exactly when some match names it |
| Proximity.TallyOfSums | gadjit/plugins/scoring/requester_profile_attribute_proximity/plugin.py:60-84 | every occurrence adds: tally = old tally + sum of occurrences, and a member is tallied exactly when it was there or was reported |
| Proximity.TallyOfNonNegative | gadjit/plugins/scoring/requester_profile_attribute_proximity/plugin.py:60-84 | non-negative ratios keep every tally non-negative |
| Proximity.GetValue | gadjit/plugins/scoring/requester_profile_attribute_proximity/plugin.py:87 | a value read from the tally is one of its values |
| Proximity.PutValues | gadjit/plugins/scoring/requester_profile_attribute_proximity/plugin.py:68-71 | after assignment every value is the new one or an old one |
| Proximity.Scale | gadjit/plugins/scoring/requester_profile_attribute_proximity/plugin.py:90-100 | a falsy relationship score leaves the mean of the top three unscaled; a truthy number multiplies it and `True` keeps it; with nothing tallied the score is still the integer 0, so a string or a list is repeated zero times into `""` or `[]`; a float cannot multiply a string or a list, and nothing multiplies a dictionary (TypeError) |
| Proximity.TalliedNonNegative | gadjit/plugins/scoring/requester_profile_attribute_proximity/plugin.py:60-84 | every tally is non-negative, and nothing is tallied when no member was reported |
| Proximity.ScaleNonNegative | gadjit/plugins/scoring/requester_profile_attribute_proximity/plugin.py:98-100 | scaling a non-negative mean by anything but a negative number gives no negative number |
| Proximity.ProximityScoreNonNegative | gadjit/plugins/scoring/requester_profile_attribute_proximity/plugin.py:23-103 | a numeric score is never negative unless the model rates the relationship with a negative number; a score that is not a number is `""` or `[]` |
| Proximity.NoMembersScoreZero | gadjit/plugins/scoring/requester_profile_attribute_proximity/plugin.py:86-100 | an entitlement without members scores 0 when the relationship score is absent, falsy, a number or `True` |
| Proximity.NoMembersScale | gadjit/plugins/scoring/requester_profile_attribute_proximity/plugin.py:86-100 | without members nothing is tallied, so the score is the relationship score applied to the integer 0 |
| Proximity.ScaleOfNothing | gadjit/plugins/scoring/requester_profile_attribute_proximity/plugin.py:90-100 | the integer 0, unscaled or times a number or a boolean, is 0 |
| Proximity.NoMembersScoreString | gadjit/plugins/scoring/requester_profile_attribute_proximity/plugin.py:98-100 | without members, a truthy string relationship score gives `""` |
| Proximity.NoMembersScoreList | gadjit/plugins/scoring/requester_profile_attribute_proximity/plugin.py:98-100 | without members, a non-empty list relationship score gives `[]` |
| Proximity.NoMembersScoreDict | gadjit/plugins/scoring/requester_profile_attribute_proximity/plugin.py:98-100 | without members, a non-empty dictionary relationship score raises TypeError |
| Proximity.IncompleteAnswerTypeError | gadjit/plugins/scoring/requester_profile_attribute_proximity/plugin.py:155-157 | a model that never completes its answer makes the scorer fail with TypeError, when the entitlement has members |
| Proximity.ProximityScoreIgnoresEmails | gadjit/plugins/scoring/requester_profile_attribute_proximity/plugin.py:23-103 | the score depends on the members' profiles, never on their e-mail addresses |
| Proximity.TallyLoop | gadjit/plugins/scoring/requester_profile_attribute_proximity/plugin.py:63-84 | each of the two tally loops gives the tally of the contributions, or the first match's error |
| Proximity.ComputeScores | gadjit/plugins/scoring/requester_profile_attribute_proximity/plugin.py:23-103 | `compute_scores` returns exactly the specified score, which need not be a number: the three queries first, then the two tally loops, the top-three mean and the scaling |
| Utils.Resolve | gadjit/utils.py:23-47 | anything that is neither a list nor a dictionary comes back unchanged |
| Utils.ResolveSpec | gadjit/utils.py:23-47 | substitution succeeds exactly when every placeholder's variable is set, and keeps the shape: the same length, the same keys in the same order, each entry resolved |
| Utils.EntrySpec | gadjit/utils.py:25-34 | one entry resolves exactly when its placeholders' variables are set |
| Utils.ItemsSpec | gadjit/utils.py:36-46 | a list's first items resolve exactly when their variables are set, each to its resolved value |
| Utils.FieldsSpec | gadjit/utils.py:24-34 | a dictionary's first fields resolve exactly when their variables are set, each keeping its key |
| Utils.ResolveNoPlaceholders | gadjit/utils.py:24-34 | a tree without `env:` strings comes back unchanged, whatever the environment |
| Utils.UnchangedItems | gadjit/utils.py:36-46 | such a list's items stay as they are |
| Utils.UnchangedFields | gadjit/utils.py:24-34 | such a dictionary's fields stay as they are |
| Utils.SinglePass | gadjit/utils.py:32-44 | a substituted value is stored verbatim and is not expanded again |
| Utils.MissingVariable | gadjit/utils.py:23-47 | substitution fails only with RuntimeError `Environment variable 'NAME' not found`, for a placeholder whose variable NAME is not set |
| Utils.EntryMissing | gadjit/utils.py:25-34 | one entry fails only for a placeholder whose variable is not set, or inside a nested container |
| Utils.ItemsMissing | gadjit/utils.py:35-46 | a list's items fail only with the error of an unset variable |
| Utils.FieldsMissing | gadjit/utils.py:23-34 | a dictionary's fields fail only with the error of an unset variable |
| Utils.ItemsPrefixErr | gadjit/utils.py:36-46 | the first failing item ends the walk with its error |
| Utils.FieldsPrefixErr | gadjit/utils.py:24-34 | the first failing field ends the walk with its error |
| Utils.ProcessEnvVariables | gadjit/utils.py:7-47 | the walk computes exactly the substituted tree, or the error the substitution meets first |
| Utils.ProcessEntry | gadjit/utils.py:25-34 | one entry is replaced, recursed into, or left as it is, as the substitution says |
| Utils.ProcessItems | gadjit/utils.py:35-46 | the loop over a list overwrites each item in turn with its resolved value |
| Utils.ProcessFields | gadjit/utils.py:23-34 | the loop over a dictionary overwrites each value in turn, keeping every key in place |
| Utils.Invoke | gadjit/utils.py:65-66 | `getattr(plugin, name)(...)`: `compute_scores` on the proximity scorer returns its score, whatever value that is; `score` takes one argument (TypeError); every other name is treated as missing (AttributeError), as stated under Left out |
| Utils.RunAllSpec | gadjit/utils.py:63-67 | exactly one result per plugin, in order, each from the same call, when every call succeeds; otherwise the error of the first plugin that fails |
| Utils.RunAllPrefixErr | gadjit/utils.py:64-66 | the first failing plugin ends the loop with its error |
| Utils.PluginsRunFunction | gadjit/utils.py:50-67 | the loop returns exactly the results the specification gives |
| Gadjit.GadjitSection | gadjit/__main__.py:66 | the `gadjit` section must be a dictionary; otherwise `.get` raises AttributeError |
| Gadjit.Preflight | gadjit/__main__.py:66-82 | unless there is exactly one IGA plugin, exactly one LLM plugin and at least one scoring plugin, the matching RuntimeError is raised, in that order, before any request is retrieved |
| Gadjit.ReferAs | gadjit/__main__.py:106 | `refer_to_myself_as` defaults to `Gadjit`, and a configured string is used verbatim |
| Gadjit.RoundHalfEven | gadjit/__main__.py:104 | rounding is within one half, and ties go to the even neighbour |
| Gadjit.Round2 | gadjit/__main__.py:104 | `round(x, 2)` is within 0.005 of `x` |
| Gadjit.Round2Threshold | gadjit/__main__.py:104-133 | the rounded score is at least 1 exactly when the mean is at least 0.995 |
| Gadjit.Round2Exact | gadjit/__main__.py:104 | a value with two decimals is its own rounding |
| Gadjit.Round2Idempotent | gadjit/__main__.py:104 | rounding twice is rounding once |
| Gadjit.Aggregate | gadjit/__main__.py:88-104 | the rejection flag is set exactly when some result is negative, the review flag exactly when some result is zero, and the score is within 0.005 of the mean of all results; no results divide by zero |
| Gadjit.Numeric | gadjit/__main__.py:94-99 | a result compares with 0 as a number, a boolean as 1 or 0; any other value reaches `< 0` and raises TypeError |
| Gadjit.Numbers | gadjit/__main__.py:92-101 | the results read as numbers, one per result, exactly when every result is a number or a boolean; TypeError otherwise |
| Gadjit.AggregateScores | gadjit/__main__.py:88-104 | the loop over the results stops with TypeError at a result that is not a number, and otherwise sets exactly the specified flags and score |
| Gadjit.DecidePrecedence | gadjit/__main__.py:108-133 | rejection exactly when some result is negative; otherwise review exactly when some result is zero or the mean is below 0.995; otherwise approval, which needs all results positive |
| Gadjit.Comment | gadjit/__main__.py:112-143 | every comment starts with the name it refers to itself by |
| Gadjit.CommentScoreSuffix | gadjit/__main__.py:112-143 | the rejection comment never shows the score; the review and approval comments are their text followed by ` [score]` exactly when `include_score_in_comments` is true, and end in their final full stop otherwise |
| Gadjit.KeyList | gadjit/__main__.py:154-156 | iterating over a dictionary yields its keys, in order |
| Gadjit.StringItems | gadjit/__main__.py:154-156 | list entries that are not strings have no `strip` (AttributeError); otherwise the strings, in order |
| Gadjit.ListEntries | gadjit/__main__.py:147-152 | a string gives exactly its pieces split on `,`, a list of strings gives its strings in order, a list with another item fails on `strip` (AttributeError), a dictionary gives its keys, and a scalar is not iterable (TypeError) |
| Gadjit.Clean | gadjit/__main__.py:154-156 | each entry, in order, stripped and then lower-cased |
| Gadjit.AllowList | gadjit/__main__.py:147-156 | the allow-list is the configured entries, each stripped and lower-cased, or the error of reading them; without the option it is empty |
| Gadjit.AutoApproved | gadjit/__main__.py:147-163 | the entitlement is allow-listed exactly when its lower-cased name, or else its lower-cased id, is on the cleaned list; a missing name, or a missing id that must be looked at, raises AttributeError |
| Gadjit.AllowListedByName | gadjit/__main__.py:154-160 | a name equal, up to case and surrounding spaces, to a listed entry is allow-listed |
| Gadjit.AllowListFromString | gadjit/__main__.py:147-163 | a comma-separated allow-list approves exactly when the lower-cased name or id is one of its pieces, stripped and lower-cased |
| Gadjit.AllowListedFromString | gadjit/__main__.py:150-160 | a name equal, up to case and surrounding spaces, to a piece between the commas is allow-listed |
| Gadjit.OnCleanedList | gadjit/__main__.py:158-163 | with the list read, approval is membership of the lower-cased name or id |
| Gadjit.InClean | gadjit/__main__.py:154-156 | a text is on the cleaned list exactly when some entry cleans to it |
| Gadjit.AllowListOnlyOnApproval | gadjit/__main__.py:106-163 | outside the approval branch the outcome is its branch's, not allow-listed, and does not change whatever `entitlements_to_auto_approve` holds, even a value that cannot be iterated |
| Gadjit.ApprovalReadsAllowList | gadjit/__main__.py:134-163 | in the approval branch an error reading the allow-list ends the request; otherwise the outcome records whether the entitlement is allow-listed |
| Gadjit.ScoresNeverEmpty | gadjit/__main__.py:80-104 | with a scoring plugin, the results have one entry per plugin, and a request never fails by division by zero |
| Gadjit.NonNumericResultFails | gadjit/__main__.py:91-99 | a scorer result that is not a number, such as the `""` of `0 * "0.8"`, does not stop the other scorers, and the request then fails with TypeError at the comparison |
| Gadjit.ProcessStep | gadjit/__main__.py:86-167 | the loop over the requests extends the comments and the outcomes by one request, or stops at its error |
| Gadjit.HandleSpec | gadjit/__main__.py:86-167 | a request handled without error has its evaluated outcome, and only a rejection posts a comment |
| Gadjit.EvaluateComment | gadjit/__main__.py:106-143 | the comment of an outcome is the comment of its branch |
| Gadjit.HandlePosted | gadjit/__main__.py:108-117 | a request posts a comment only when it is rejected, and then its own comment |
| Gadjit.ProcessOutcomes | gadjit/__main__.py:85-167 | a completed run has one outcome per request, in order, each the request's own |
| Gadjit.ProcessPosted | gadjit/__main__.py:85-167 | in a completed run the connector receives exactly the rejection comments, in order |
| Gadjit.RejectionsStep | gadjit/__main__.py:108-117 | the rejection comments of one more request are those before plus its own |
| Gadjit.PostedAreRejections | gadjit/__main__.py:112-144 | every comment posted, even in a run that fails, is the rejection comment, so none carries a score |
| Gadjit.ExampleApprove | gadjit/__main__.py:88-144 | results `[0.5, 1.5]` average to 1 with no flag, and approve |
| Gadjit.ExampleVeto | gadjit/__main__.py:97-108 | a negative result rejects whatever the mean |
| Gadjit.ExampleZeroForcesReview | gadjit/__main__.py:95-119 | a zero result sends a request to review even when the mean is 1 |
| Gadjit.IgaPlugin.constructor | gadjit/models.py:9-19 | the connector keeps its configuration and starts with no recorded calls |
| Gadjit.IgaPlugin.RetrieveRequests | gadjit/__main__.py:85 | retrieval returns what the connector returns |
| Gadjit.IgaPlugin.CommentRequest | gadjit/__main__.py:117 | a comment is recorded, and nothing else changes |
| Gadjit.IgaPlugin.ApproveRequest | gadjit/models.py:51-64 | the approval call is recorded and answered by the plugin (the base class raises NotImplementedError); comments and denials are unchanged |
| Gadjit.IgaPlugin.DenyRequest | gadjit/models.py:66-79 | the denial call is recorded and answered by the plugin (the base class raises NotImplementedError); comments and approvals are unchanged |
| Gadjit.HandleRequest | gadjit/__main__.py:86-167 | one request: its outcome and the comments posted are exactly the specified ones; nothing is approved or denied |
| Gadjit.Run | gadjit/__main__.py:44-167 | a failed check posts nothing; otherwise the outcome and the comments posted are exactly those of the specified loop over the retrieved requests; no connector approves or denies |
| Gadjit.ProcessRequests | gadjit/__main__.py:85-167 | the loop over the requests posts exactly the specified comments and returns the specified outcomes |
| EnvConfig.ParseInt | gadjit/__main__.py:205 | `int()` fails only with ValueError |
| EnvConfig.NatString | gadjit/__main__.py:205 | the decimal spelling of a number is a non-empty run of digits |
| EnvConfig.DigitsValueNatString | gadjit/__main__.py:205 | the digits of a number spell that number |
| EnvConfig.ParseIntNatString | gadjit/__main__.py:205 | `int` reads back every number written in decimal, with or without a minus sign |
| EnvConfig.ParseIntDigits | gadjit/__main__.py:205 | a run of digits parses to the number it spells |
| EnvConfig.ParseIntOf | gadjit/__main__.py:205 | surrounding whitespace is ignored |
| EnvConfig.ParseIntNegativeDigits | gadjit/__main__.py:205 | a minus sign before digits gives the negated number |
| EnvConfig.ParseIntNoEdges | gadjit/__main__.py:205 | text without surrounding whitespace parses as it is |
| EnvConfig.Coerce | gadjit/__main__.py:200-237 | `true`/`false` in any case become booleans, true exactly for `true`; anything else is stored verbatim |
| EnvConfig.PyIndex | gadjit/__main__.py:214-228 | Python list indexing: an index is valid from `-n` to `n - 1`, and a negative one counts from the end |
| EnvConfig.EnsureIndex | gadjit/__main__.py:213-232 | an index that fails appends exactly one `{"name": None, "enabled": None, "config": None}` |
| EnvConfig.SetPluginKey | gadjit/__main__.py:211-238 | on a dictionary, without a sub-key the key holds the coerced value; with one, a missing key is a KeyError, a truthy non-dictionary has no `update` (AttributeError), and otherwise the key holds the old dictionary (or `{}` for a falsy value) with the sub-key set to the raw value; every other key is unchanged; a non-dictionary entry raises TypeError |
| EnvConfig.WithList | gadjit/__main__.py:208-209 | the list of a plugin kind is created empty only when it is missing |
| EnvConfig.SetInList | gadjit/__main__.py:211-238 | an index above the length or below `-(n+1)` raises IndexError; otherwise, after the append, the entry at the Python index is set as `SetPluginKey` says, or fails with its error, and every other entry is unchanged |
| EnvConfig.ReplayPrefixErr | gadjit/__main__.py:194-238 | the first variable that raises ends the environment configuration with its error |
| EnvConfig.ReplayNext | gadjit/__main__.py:194-238 | one more variable is applied to the configuration built so far |
| EnvConfig.ConfigFromEnvironment | gadjit/__main__.py:170-239 | the loop over the environment computes exactly the specified configuration |
| EnvConfig.IgnoresOtherVariables | gadjit/__main__.py:195 | a variable without the `GADJIT_` prefix changes nothing |
| EnvConfig.SingleUnderscoreIndexError | gadjit/__main__.py:196-197 | a prefixed name without any `__` has no section and raises IndexError |
| EnvConfig.GadjitOption | gadjit/__main__.py:198-203 | a `gadjit` option is stored, coerced, under its lower-cased name; every other option of the section and every other section are unchanged |
| EnvConfig.ApplyPluginAt | gadjit/__main__.py:204-238 | a plugin variable whose index parses sets or fails as the list update says |
| EnvConfig.PluginAppend | gadjit/__main__.py:227-238 | an index one past the end appends a fresh entry with the key set |
| EnvConfig.WithListHeld | gadjit/__main__.py:208-209 | after creating the list, the section holds the plugin list so far |
| EnvConfig.SetInListAppend | gadjit/__main__.py:227-238 | the list update at the end appends the new entry |
| EnvConfig.PluginIndexTooFar | gadjit/__main__.py:213-232 | an index above the list's length `n`, or below `-(n+1)`, still raises IndexError |
| EnvConfig.SubKeyMissing | gadjit/__main__.py:211-225 | a sub-key on a fresh entry fails unless the key exists: `name`, `enabled` and `config` are the only keys of a new entry |
| EnvConfig.WithListShaped | gadjit/__main__.py:208-209 | creating a list keeps the configuration well shaped |
| EnvConfig.ApplyEntryShaped | gadjit/__main__.py:194-238 | every variable keeps the configuration well shaped: `gadjit` a dictionary, every plugin list a list of dictionaries |
| EnvConfig.ApplyGadjitShaped | gadjit/__main__.py:198-203 | a `gadjit` option keeps the shape |
| EnvConfig.ApplyPluginShaped | gadjit/__main__.py:204-238 | a plugin variable keeps the shape and never raises TypeError |
| EnvConfig.FromEnvironmentShaped | gadjit/__main__.py:170-239 | the whole environment configuration keeps the shape and never raises TypeError |
| ConductorOneCron.ApiClient.constructor | plugins/iga/conductorone_cron/plugin.py:39 | the client keeps its configuration and starts with no calls made |
| ConductorOneCron.ApiClient.Send | plugins/iga/conductorone_cron/plugin.py:171-199 | each call is appended to the log, and its answer is the server's answer to it |
| ConductorOneCron.AsToken | plugins/iga/conductorone_cron/plugin.py:151 | only a token answer reads as a token |
| ConductorOneCron.AsTasks | plugins/iga/conductorone_cron/plugin.py:63-66 | only a task listing reads as task summaries |
| ConductorOneCron.AsBody | plugins/iga/conductorone_cron/plugin.py:111-118 | only a JSON body reads as one |
| ConductorOneCron.AsMembers | plugins/iga/conductorone_cron/plugin.py:176-180 | only a member listing reads as the members |
| ConductorOneCron.AsNothing | plugins/iga/conductorone_cron/plugin.py:103-123 | only an empty answer reads as success |
| ConductorOneCron.Pad | plugins/iga/conductorone_cron/plugin.py:280 | the padding is 1 to 4 `=` characters, and the padded length is a multiple of 4 |
| ConductorOneCron.PadFits | plugins/iga/conductorone_cron/plugin.py:280 | `n + (4 - n % 4)` is a multiple of 4 |
| ConductorOneCron.JwtOfThreeParts | plugins/iga/conductorone_cron/plugin.py:244-268 | a token of exactly three parts is judged by its padded, decoded payload: expired when that fails or the claim is missing or not a number, and otherwise by the claim |
| ConductorOneCron.JwtOfTwoPartsExpired | plugins/iga/conductorone_cron/plugin.py:246-268 | a token without exactly three parts is expired |
| ConductorOneCron.JwtExpiryRule | plugins/iga/conductorone_cron/plugin.py:263-264 | with a numeric `exp`, the token is expired exactly when `now > exp - margin` |
| ConductorOneCron.JwtWithoutClaimExpired | plugins/iga/conductorone_cron/plugin.py:255-258 | a payload without `exp` makes the token expired |
| ConductorOneCron.JwtExpiredLater | plugins/iga/conductorone_cron/plugin.py:263-264 | an expired token stays expired as the clock moves on |
| ConductorOneCron.AccessTokenSpec | plugins/iga/conductorone_cron/plugin.py:150-153 | the cache authenticates exactly when its token is missing, empty or expired; otherwise it returns the cached token and keeps it; afterwards it holds the token it handed out |
| ConductorOneCron.TokenAgain | plugins/iga/conductorone_cron/plugin.py:150-153 | a second lookup at the same instant hands out the token the first one did |
| ConductorOneCron.FreshTokenReused | plugins/iga/conductorone_cron/plugin.py:150-153 | a token that is neither empty nor expired is returned without any call |
| ConductorOneCron.EntitlementName | plugins/iga/conductorone_cron/plugin.py:186-189 | the name is `displayName` with every ` Group Member` removed; a missing name has no `replace` |
| ConductorOneCron.EntitlementOf | plugins/iga/conductorone_cron/plugin.py:183-194 | the entitlement carries the members fetched and a cleaned name |
| ConductorOneCron.WithoutRequester | plugins/iga/conductorone_cron/plugin.py:202 | the requester's address is popped when present, nothing fails when it is absent, and an unhashable address raises TypeError |
| ConductorOneCron.PrepareSpec | plugins/iga/conductorone_cron/plugin.py:155-228 | a request is built from exactly the three calls in order; its name is cleaned; its members are those fetched without the requester's address; its metadata is only `policy_step_id` |
| ConductorOneCron.RequesterExcluded | plugins/iga/conductorone_cron/plugin.py:202 | the requester's address is gone from the members, and every other address keeps its profile |
| ConductorOneCron.CollectNext | plugins/iga/conductorone_cron/plugin.py:66-70 | one pass of the loop extends the calls and the requests built so far |
| ConductorOneCron.FetchKeepsTask | plugins/iga/conductorone_cron/plugin.py:218-226 | a request built from a summary carries its task's id and policy step |
| ConductorOneCron.CollectPrefixErr | plugins/iga/conductorone_cron/plugin.py:66-70 | the first summary that fails ends the loop with its error |
| ConductorOneCron.CollectSpec | plugins/iga/conductorone_cron/plugin.py:66-72 | a completed retrieval yields one request per summary, in order, each with its task's id and policy step |
| ConductorOneCron.WithoutAuthentication | plugins/iga/conductorone_cron/plugin.py:103-123 | dropping the authentications leaves no authentication |
| ConductorOneCron.WithoutAuthenticationAppend | plugins/iga/conductorone_cron/plugin.py:103-123 | dropping authentications distributes over concatenation |
| ConductorOneCron.ReadAndApproveSequence | plugins/iga/conductorone_cron/plugin.py:110-123 | besides authentications, the second half reads the task, then approves the step that read returned |
| ConductorOneCron.ApproveSequence | plugins/iga/conductorone_cron/plugin.py:90-123 | besides authentications, a completed approval makes exactly three calls: the reassignment to the configured user at the recorded step, the read of the task, and the approval of the step that read returned |
| ConductorOneCron.CronPlugin.constructor | plugins/iga/conductorone_cron/plugin.py:21-39 | the plugin keeps its configuration, has no cached token and a fresh client with no calls made |
| ConductorOneCron.CronPlugin.GetAccessToken | plugins/iga/conductorone_cron/plugin.py:140-153 | the token, the cache and the calls are exactly those of the specified token lookup |
| ConductorOneCron.CronPlugin.PrepareContextObjects | plugins/iga/conductorone_cron/plugin.py:155-228 | building a request makes exactly the specified calls and returns the specified request |
| ConductorOneCron.CronPlugin.FetchRequest | plugins/iga/conductorone_cron/plugin.py:67-70 | one pass of the loop: a token lookup, then the request built with it |
| ConductorOneCron.CronPlugin.NextRequest | plugins/iga/conductorone_cron/plugin.py:66-70 | one pass keeps the loop's relation to the specification |
| ConductorOneCron.CronPlugin.RetrieveRequests | plugins/iga/conductorone_cron/plugin.py:41-72 | a token, the search since 16 hours before `now`, then one request per summary: exactly the specified calls, cache and result |
| ConductorOneCron.CronPlugin.CollectRequests | plugins/iga/conductorone_cron/plugin.py:66-72 | the loop over the summaries makes exactly the specified calls and results |
| ConductorOneCron.CronPlugin.CommentRequest | plugins/iga/conductorone_cron/plugin.py:74-88 | a token lookup, then the comment on the request's task |
| ConductorOneCron.CronPlugin.ApproveRequest | plugins/iga/conductorone_cron/plugin.py:90-123 | the reassignment, the read and the approval, each after a token lookup, exactly as specified |
| ConductorOneCron.CronPlugin.ReadAndApproveRequest | plugins/iga/conductorone_cron/plugin.py:110-123 | the read of the new step and its approval, exactly as specified |
| ConductorOneCron.CronPlugin.DenyRequest | plugins/iga/conductorone_cron/plugin.py:125-138 | denial does nothing and succeeds |

## Left out

- Plugin loading (`load_plugins`, gadjit/utils.py:70-122) inspects files at run time. The plugins are explicit lists instead.
- The command line, YAML loading and logging setup (gadjit/__main__.py:13-23, 56-68) are left out, and so is every `logging` call. `run` starts from a loaded configuration.
- `lambda_handler` re-raises every exception (gadjit/__main__.py:35-36), so its 500 branch is unreachable. The handler is left out.
- The HTTP clients (gadjit/plugins/iga/conductorone_cron/api.py and plugins/iga/conductorone/api.py) are not part of this model. Their retries, pagination and `raise_for_status` are left out. The server is a function from a call to its answer, or to an error.
- Because the server is a fixed function of the call, a second authentication at the same instant behaves like the first. Rotating tokens and answers that change over time are not modelled.
- An answer of the wrong kind for a call (a token where a task was expected) is a TypeError in the model. The real client cannot return one.
- The LLM transports (OpenAI, the AWS API gateway proxy, aigateway) and the terminal printer are left out. The language model is a function from the prompt's inputs to an answer, `None` or an error.
- The prompt texts (plugin.py:224-275, 306-359) are left out. A prompt is represented by the values it is filled with; only the member listing is modelled character by character.
- `time.time()`, `datetime.utcnow()`, `strftime`, `json.loads` and `base64.urlsafe_b64decode` are parameters. Each operation reads the clock once, so all token lookups within it see the same instant.
- Floating point is left out. Scores are exact reals, and `round(x, 2)` is half-even rounding on reals. NaN and infinities are not modelled.
- `str.lower` is the ASCII case mapping. Unicode case folding is not modelled.
- `int()` accepts ASCII digits only. Other Unicode digits are not modelled, and neither is the `repr` text of its ValueError message.
- The requester has one organizational-unit field. The connector fills `supervisory_organization` from `SupervisoryOrganization` (gadjit/models.py:235, plugins/iga/conductorone_cron/plugin.py:213). The scorer reads `organizational_unit` (plugin.py:44), which the class does not define, so Python as written raises AttributeError there. The model lets one field serve both sides.
- Gadjit.ReferAs: a `refer_to_myself_as` that is not a string is rendered by a `display` function the caller supplies, because the model does not reproduce Python's f-string rendering of arbitrary values.
- Utils.Invoke: every attribute other than `compute_scores` and `score` is modelled as missing (AttributeError). In Python, names the plugin object does have raise TypeError instead: `config` is a dictionary and cannot be called, the scorer's private methods take other arguments, and so do the dunder methods. `run` only ever passes `compute_scores` (gadjit/__main__.py:91-92).
- ConductorOneCron.WithoutRequester: members are keyed by e-mail strings, so a member without an address is not represented. The client stores such a member under the key `None` (gadjit/plugins/iga/conductorone_cron/api.py:265-268), and a requester whose address is missing (`None`) pops that member (plugins/iga/conductorone_cron/plugin.py:202). The model leaves the members unchanged in that case.
- The base scoring plugin's method is named `score`, but `run` calls `compute_scores`. On a plugin without that method, the call is an AttributeError; the model states this in `Utils.Invoke`.
- `process_env_variables` overwrites entries in place and returns the object it was given. The model returns the new tree as a value. Aliasing between the input and the result is therefore not modelled.
- API fields stored as optional strings (ids, names, titles) must be strings or `null` in the model. A number in such a field would be a TypeError in the model only; this is an artifact of the typing.
- The environment examples in the docstring of `_config_from_environment` use single underscores (gadjit/__main__.py:177-184). Such a name has no `__` and raises IndexError (`EnvConfig.SingleUnderscoreIndexError`).
- The older copies at the repository root (gadjit.py, utils.py, models.py) and plugins/iga/conductorone/plugin_conductorone_cron.py are not part of this model. Their logic is covered by the versions modelled here.
- The cron plugin imports `models` and the client from its own package (plugins/iga/conductorone_cron/plugin.py:5-9). Those imports are not part of this model.
