# django-ranks, modelled in Dafny

This project models the core of `django_ranks`, a Django app that gives entities a skill
rating and a score that can be compared and ordered. It has two parts.

- **The numeric model** (`numeric.dfy`, module `Numeric`) models `base.py`. It has the `ops` table
  of twelve operator symbols, `check_op`, `run_operator`, and the dispatcher `numerical`. It also has
  the comparison and arithmetic dunders, which all route through that dispatcher. An entity counts
  as its number (`get_number`). Every operation gives back a `Result`, so the Python exceptions are
  error values:
  - an unknown symbol gives `NoOperator`;
  - `other.__dict__()` raising gives `DictLookupRaises`;
  - a zero divisor gives `ZeroDivision`;
  - `^` on a float gives `UnsupportedOperand`.

  The other operand is an `Operand`, one of four kinds:
  - another instance of exactly the same model class;
  - exactly an `int`;
  - exactly a `float`;
  - anything else, which carries only its truth value.

  An `int` or `float` operand is truncated toward zero, as Python's `int()` does.
- **The rank entity** (`ranks.dfy`, module `Ranks`) models `models.py`.
  - `Rank` is a class with the fields `mu`, `sigma`, `score` and `originalScore`.
  - `save` recomputes the score as the ordinal of the rating. If the score differs from the
    snapshot taken at construction or at the last save, it announces the new score on `rate_changed`. Then it
    commits and takes a new snapshot.
  - `set_rate` copies a rating in and, when asked, saves.
  - `rate_single_member_teams` validates its input and rates the teams with the library. It then
    calls `set_rate` and `save` on each team zipped with its result.

  Each state-changing method is proved against a pure function of the fields (`SaveEffect`,
  `SetRateEffect`, `UpdateTeam`, `UpdateTeams`). The lemmas prove the properties of those
  functions.

The shared file `failures.dfy` holds `Option` and `Result`.

Modelling choices:
- **The rating library.** The library computes `ordinal` and `rate`, and this model does not
  interpret them. A `Ranks.Library` value passes them in as function parameters. `rate` returns
  `None` where the library raises.
- **The trace.** The `rate_changed` channel and the database commits form one append-only trace,
  `Ranks.EventLog`. A signal is a `RateChanged(newScore)` entry. The `super().save()` commit is a
  `Committed(score)` entry.
- **Floats.** Python floats are modelled as `real`.
- **`len(teams[0])`.** Its outcome is a parameter, `firstLen`. It is `None` when the object defines
  no length.

The model follows the code in these places:
- **Comparisons use the stored score.** Ranks compare through `get_number`, which returns
  `score`. They do not compare through the ordinal of their current rating, so a rank whose rating
  changed without a save still compares by its old score (`Ranks.RanksCompareByStoredScore`).
- **Lines 59-64 of `base.py` always raise for ordinary objects.** Line 59 calls the attribute
  dictionary. For an ordinary object that dictionary is a plain `dict`, which cannot be called;
  `None`, a bool and a str have no `__dict__` at all. Either way the call raises, so for such
  operands the later branches are never reached and the result is `DictLookupRaises`. An object
  whose class replaces `__dict__` with something callable is not modelled (see "Left out").
- **`__eq__` is not the complement of `__ne__`.** It answers `False` for a falsy operand without
  comparing, while `__ne__` compares.

## Model

| member | source | states |
|---|---|---|
| Numeric.OpsKeys | django_ranks/base.py:8-21 | The table's keys are exactly the twelve symbols `+ - * / % ^ >= > <= < == !=`. |
| Numeric.SymbolInOps | django_ranks/base.py:8-21 | Every operator is in the table, under its own symbol. |
| Numeric.OpsKeyIsSymbol | django_ranks/base.py:8-21 | Every key of the table is the symbol of the operator listed under it. |
| Numeric.SymbolNamesOneOp | django_ranks/base.py:8-21 | No two operators share a symbol. |
| Numeric.CheckOp | django_ranks/base.py:24-26 | Passes iff the symbol is a key of the table, which holds iff some operator has that symbol. On success it gives that key's operator. Otherwise it is the "No Operator" error for that symbol. |
| Numeric.Truncate | django_ranks/base.py:58 | `int()` of a float truncates toward zero: it is at most 1 away from the float, and on the side of the float nearer zero. |
| Numeric.Apply | django_ranks/base.py:9-20 | Fails exactly for `^`, and for `/` or `%` by zero. Only comparisons yield a bool. The quotient times the divisor gives back the dividend. The floored remainder differs from the dividend by a whole multiple of the divisor and lies between 0 and the divisor. `>=`, `>` and `!=` negate `<`, `<=` and `==`. |
| Numeric.FloorMod | django_ranks/base.py:13 | Float `%`: the result differs from `x` by a whole multiple of `y`. It lies in [0, y) for positive `y` and in (y, 0] for negative `y`. |
| Numeric.RunOperator | django_ranks/base.py:29-31 | An unknown symbol fails with "No Operator". A known one applies exactly the operator with that symbol. |
| Numeric.Numerical | django_ranks/base.py:53-64 | An invalid symbol fails first, whatever the operand. With a valid symbol the operator is applied to the number and the coerced operand: the same model's number, or the truncated int or float. Any other operand fails. |
| Numeric.UnknownSymbolAlwaysFails | django_ranks/base.py:53-54 | A symbol outside the table gives the "No Operator" error for every number and operand. |
| Numeric.FloatOperandIsTruncated | django_ranks/base.py:57-58 | Comparing with 2.9 compares with 2, and comparing with -2.9 compares with -2. |
| Numeric.Eq | django_ranks/base.py:66-69 | A falsy operand gives False without a comparison. Otherwise the result is equality with the coerced operand, or the error for an operand that cannot be coerced. |
| Numeric.Lt | django_ranks/base.py:73-74 | The result is `number < operand` for a coercible operand, and the error otherwise. |
| Numeric.Le | django_ranks/base.py:76-77 | The result is `number <= operand` for a coercible operand, and the error otherwise. |
| Numeric.Ge | django_ranks/base.py:79-80 | The result is `number >= operand` for a coercible operand, and the error otherwise. |
| Numeric.Gt | django_ranks/base.py:82-83 | The result is `number > operand` for a coercible operand, and the error otherwise. |
| Numeric.Ne | django_ranks/base.py:85-86 | The result is `number != operand` for every coercible operand, falsy ones included, and the error otherwise. |
| Numeric.EqAndNeBothFalse | django_ranks/base.py:66-86 | For a falsy operand equal to the number, `==` and `!=` both give False. |
| Numeric.Add | django_ranks/base.py:88-89 | The result is the sum with the coerced operand, or the error. |
| Numeric.RAdd | django_ranks/base.py:91-92 | Reflected addition gives `operand + number`, or the error. |
| Numeric.RAddIsAdd | django_ranks/base.py:88-92 | `__radd__` agrees with `__add__` on every operand. |
| Numeric.Mul | django_ranks/base.py:94-95 | The result is the product with the coerced operand, or the error. |
| Numeric.TrueDiv | django_ranks/base.py:97-98 | A zero divisor raises, including a float that truncates to zero. Otherwise the result is the quotient. |
| Numeric.Sub | django_ranks/base.py:100-101 | The result is the difference with the coerced operand, or the error. |
| Numeric.Mod | django_ranks/base.py:103-104 | A zero divisor raises. Otherwise the result differs from the number by a whole multiple of the divisor and lies between 0 and the divisor, on the divisor's side. |
| Numeric.Xor | django_ranks/base.py:106-107 | The result is never a value: a coercible operand gives the unsupported-operand error, any other operand the dispatch error. |
| Ranks.Rank.CurrentRating | django_ranks/models.py:71-73 | No contract of its own: the `rating` property is modelled by its body, `Rating(mu, sigma)`. The `Rank.Save` and `Rank.SetRate` rows state what it means for comparisons. |
| Ranks.Rank.Ordinal | django_ranks/models.py:75-77 | No contract of its own: the `ordinal` property is modelled by its body, the library's ordinal of `Rating(mu, sigma)`. The library's ordinal is a parameter. Its partner is the clause `GetNumber() == Ordinal(lib)` in `Rank.Save` and `Rank.SetRate`. |
| Ranks.Rank.GetNumber | django_ranks/models.py:28-29 | No contract of its own: `get_number` is modelled by its body, the stored score. It equals `Ordinal(lib)` right after a save (`Rank.Save`), but not in general (`RanksCompareByStoredScore`). |
| Ranks.Rank.constructor | django_ranks/models.py:53-55 | The snapshot `originalScore` equals the initial score. |
| Ranks.Rank.SentRateChanged | django_ranks/models.py:41-43 | Exactly one `rate_changed` entry, carrying the new score, is appended. |
| Ranks.Rank.Save | django_ranks/models.py:45-51 | The new fields and the appended entries are exactly those of `SaveEffect` on the old fields. Afterwards `GetNumber() == Ordinal(lib)`: right after a save, the rank compares by the ordinal of its current rating. |
| Ranks.SaveRecomputesScore | django_ranks/models.py:45-51 | After a save the score is the ordinal of the unchanged `(mu, sigma)`, and the snapshot equals it. |
| Ranks.SaveScoreDependsOnlyOnRating | django_ranks/models.py:71-77 | Two states with the same `mu` and `sigma` save to the same state, whatever their scores and snapshots. |
| Ranks.SaveNotifiesIffChanged | django_ranks/models.py:46-48 | A save announces exactly one change, carrying the new score, iff the new score differs from the snapshot; otherwise it announces none. |
| Ranks.SaveEventPrecedesCommit | django_ranks/models.py:47-51 | A save commits exactly once, as its last entry, with the new score, and any announcement comes just before that commit. |
| Ranks.SecondSaveSilent | django_ranks/models.py:45-51 | Saving again with the rating unchanged leaves the state as it is and only commits. |
| Ranks.Rank.SetRate | django_ranks/models.py:82-86 | The new fields and the appended entries are exactly those of `SetRateEffect` on the old fields. With `doSave`, afterwards `GetNumber() == Ordinal(lib)`, the ordinal of the new rating. |
| Ranks.SetRateSetsOnlyRating | django_ranks/models.py:82-86 | `mu` and `sigma` come from the rating. Without a save nothing else changes and nothing is emitted. With one the score and snapshot are the rating's ordinal and exactly one commit happens. |
| Ranks.RanksCompareByStoredScore | django_ranks/models.py:28-29 | Two ranks compare with `<` and `==` by their stored scores. |
| Ranks.Validate | django_ranks/models.py:98-100 | Errors come in order: an empty list, a first team with no length, a first team longer than 1. Only `teams[0]` is checked: validation passes iff its length is at most 1 and the library's result for `[[t.rating] for t in teams]` unpacks into four one-member teams; the result then is the library's own. |
| Ranks.PlainRankTeamsAlwaysFail | django_ranks/models.py:98 | For a non-empty list of objects without a length, such as ranks, validation always fails at `len`. |
| Ranks.ValidateRankTeams | django_ranks/models.py:98-100 | With each rank counted as a team of one, validation passes iff the library's result unpacks into four one-member teams. It never fails on the length. |
| Ranks.UpdateOne | django_ranks/models.py:101-103 | The team ends in `UpdateTeam`'s state, with its entries appended. Every other rank, that is every index holding a different object, is unchanged. A list holding the same rank at two indices is allowed. |
| Ranks.UpdateTeamSavesTwice | django_ranks/models.py:101-103 | Each zipped team ends with the result's rating and its ordinal as score and snapshot. It commits twice and announces at most once, on the first save. The second save is silent. |
| Ranks.UpdateTeamsAt | django_ranks/models.py:101-103 | After the loop, team `i` holds the update for `result[i][0]` when `i` is within the zip, and is untouched otherwise. |
| Ranks.UpdateTeamsTrace | django_ranks/models.py:101-103 | For n zipped teams the loop's trace holds 2n commits and at most n announcements in total, and every announcement is followed by its commit. The share of each team is stated by `UpdateTeamSavesTwice`. |
| Ranks.ApplyResults | django_ranks/models.py:101-103 | The teams' new states and the appended trace are exactly `UpdateTeams` of the old states and the first rating of each result. |
| Ranks.RateSingleMemberTeams | django_ranks/models.py:89-104 | It returns exactly what validation gives. On an error no team and no trace entry changes. On success the teams and the trace are updated as `UpdateTeams` says, and `rate`'s result is returned. |
| Ranks.RateRankTeams | django_ranks/models.py:89-104 | The function with the length check corrected gives the corrected validation's result, with the same effects. |

## Left out

- Floats are real numbers here: NaN, infinities, rounding and overflow are not modelled. `int()` of
  NaN or infinity, which raises, is not modelled either.
- The rating library's mathematics (openskill's `rate`, `ordinal` and the default `Rating()`) is not
  modelled. It enters only as the `Library` parameters.
- The database is left out. A commit is one trace entry, the row's other fields and the
  `*args`/`**kwargs` passed through to Django's `save` are ignored, and nothing is read back.
- `rate_changed` delivery to receivers is left out, as is the `print` in `sent_rate_changed`. The
  trace drops the sender class (`sender=self.__class__`, models.py:43) that each signal carries.
- Exceptions from signal receivers and from the commit are not modelled. The model assumes
  `rate_changed.send` (models.py:43) and `super().save` (models.py:50) always return normally.
  In the source either can raise: the new score has then already been assigned (line 46),
  perhaps already announced (line 48), nothing is committed, and `original_score` (line 51)
  keeps its old value. `Ranks.EventsCommitted` and the lemmas using it
  (`SaveEventPrecedesCommit`, `UpdateTeamSavesTwice`, `UpdateTeamsTrace`) describe only saves
  that return normally.
- `get_default` and `get_default_pk` are not modelled. `get_default` passes `ordinal=` to a read-only
  property, so it cannot construct a rank. `get_default_mu` and `get_default_sig` depend only on
  the library.
- `__str__`, the abstract-model metaclass, `Meta` ordering and the `QuerySet` form of `teams` are all
  left out.
- `__dict__().get("__int__")` / `__float__` (base.py:59-62) are not modelled as separate branches,
  because for an ordinary object the call at line 59 raises before they are reached.
- Numeric.Numerical: an operand whose class defines `__dict__` as a method, or as a property that
  returns a callable, gets past line 59 and can reach lines 60-64. `Operand` has no such kind,
  so the model says nothing about these objects.
- Numeric.Xor: the number is assumed to be a float. A rank built with an int score, such as
  `Rank(score=3)`, keeps that int until its first save, because a Django `FloatField` does not
  convert on assignment. Then `get_number()` is an int and `rank ^ 2` gives `3 ^ 2 == 1`; the
  model does not cover this. The same assumption sits behind every `Numeric` member:
  `number: real` always stands for a Python float.
- Ranks.ApplyResults: requires the teams to be distinct objects. The source allows the same rank to
  appear twice, and then its later update works on the state the earlier one left.
- Ranks.RateSingleMemberTeams: requires distinct team objects, for the same reason as `ApplyResults`.
- Ranks.RateRankTeams: requires distinct team objects, for the same reason as `ApplyResults`.

## Findings

| source | as written | input that shows it | evidently intended | confidence | as-written member | corrected member |
|---|---|---|---|---|---|---|
| django_ranks/models.py:98 | `len(teams[0]) > 1` takes the length of a rank, which defines no `__len__`, so it raises TypeError | any non-empty list of `Rank` objects, the type the signature declares | each rank counts as a one-member team and the check passes | high; not executed | Ranks.PlainRankTeamsAlwaysFail | Ranks.ValidateRankTeams |
