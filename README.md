# PostgreSQL database handle of grand_trade_auto, modelled in Dafny

This project models the PostgreSQL backend of grand_trade_auto's pluggable
database layer: the `DatabasePostgres` handle, its construction from a parsed
database configuration (`load_from_config`), and the list of type names that
select it (`get_type_names`).

- `config_parser.dfy` (module `ConfigParser`) models the slice of Python's
  `configparser` that the backend uses. A parsed configuration is a
  `map<string, map<string, string>>` (section, option, value). `Lookup` is
  `cp[section][option]`, which raises `KeyError` for a missing section or
  option. `GetInt` is `getint(section, option, fallback=...)`. `ParseInt` is
  the partial integer parse behind it. `IntToString` is a right inverse of it:
  every `IntToString(n)` parses back to `n`.
- `database_postgres.dfy` (module `PostgresBackend`) holds the handle class
  `DatabasePostgres` with its five fields and constructor. `LoadParams` is a
  pure function that says what `load_from_config` computes: host, then
  database, then port, stopping at the first error. The imperative
  `DatabasePostgres.LoadFromConfig` builds a new handle and is proved to agree
  with `LoadParams`.

Python exceptions are modelled as the `Err` side of a `Result`: `KeyError(key)`
and `ValueError(literal)`.

A port value that is present but not an integer is an error, not the
default. The code calls `getint(db_id, 'port', fallback=5432)`, and
configparser uses the fallback only when the section or option is missing (its
`_get_conv` catches only `NoSectionError` and `NoOptionError`). The
`ValueError` from `int()` propagates, and the model returns it too
(`MalformedPortIsError`).

## Model

| member | source | states |
|---|---|---|
| PostgresBackend.DatabasePostgres.constructor | grand_trade_auto/database/database_postgres.py:43-47 | after construction, host, port, database, cp_db_id and cp_secrets_id equal the arguments exactly |
| PostgresBackend.DatabasePostgres.LoadFromConfig | grand_trade_auto/database/database_postgres.py:71-80 | succeeds exactly when `LoadParams` does; then returns a freshly allocated handle whose five fields are the loaded values; otherwise returns the same error |
| PostgresBackend.LoadParams | grand_trade_auto/database/database_postgres.py:71-77 | succeeds iff section `db_id` has `host url` and `database`, and any `port` it has is an integer literal; on success host and database are those values, the ids pass through unchanged, and the port is 5432 when absent or the parse of the value; errors come in lookup order: missing section, then `host url`, then `database`, then a malformed port as `ValueError` |
| PostgresBackend.SecretsNeverRead | grand_trade_auto/database/database_postgres.py:25-28 | the outcome of a load does not depend on the secrets configuration, so no credential can reach the handle |
| PostgresBackend.StoredStringsComeFromInputs | grand_trade_auto/database/database_postgres.py:73-77 | every string stored by a successful load is the `host url` value, the `database` value, `db_id` or `secrets_id` |
| PostgresBackend.LoadWrittenSection | grand_trade_auto/database/database_postgres.py:73-77 | a section holding `host url`, `database` and optionally `port = str(p)` loads to exactly those values with port p, or 5432 without a port |
| PostgresBackend.MalformedPortIsError | grand_trade_auto/database/database_postgres.py:75 | `port = notanumber` makes the load fail with `ValueError("notanumber")`, not fall back to 5432 |
| PostgresBackend.DatabasePostgres.LoadTwice | grand_trade_auto/database/database_postgres.py:79-80 | two loads from the same inputs both succeed or both fail with the same error; on success the handles are distinct objects with equal fields |
| PostgresBackend.DatabasePostgres.GetTypeNames | grand_trade_auto/database/database_postgres.py:84-93 | the type names are exactly `postgres` then `postgresql`, and no other string is claimed |
| ConfigParser.Lookup | grand_trade_auto/database/database_postgres.py:73-74 | `cp[section][option]` succeeds iff both exist and returns the stored value; a missing section raises `KeyError(section)` before the option is considered, and a missing option raises `KeyError(option)` |
| ConfigParser.GetInt | grand_trade_auto/database/database_postgres.py:75 | the fallback is returned exactly when the section or option is missing; a present value yields its integer parse, or `ValueError` of that value when it is not an integer literal |
| ConfigParser.ParseInt | grand_trade_auto/database/database_postgres.py:75 | the parse is defined exactly on integer literals (optional sign, at least one digit); a literal with a minus sign is never positive and one without is never negative |
| ConfigParser.ParseIntToString | grand_trade_auto/database/database_postgres.py:75 | every integer written in decimal parses back to itself |
| ConfigParser.ParseIntLeadingZero | grand_trade_auto/database/database_postgres.py:75 | a digit string with a leading zero parses to the same number as the digit string itself |
| ConfigParser.ParseIntPlusSign | grand_trade_auto/database/database_postgres.py:75 | a digit string with an explicit `+` parses to the same number as the digit string itself |
| ConfigParser.IntToString | grand_trade_auto/database/database_postgres.py:75 | the decimal spelling of any integer is an integer literal, with a minus sign exactly when the integer is negative |

## Left out

- The base class `DatabaseMeta` and the `super().__init__` call are not part of this model; the call is treated as doing nothing.
- The commented-out credential loading (`open_or_create_database`) is dead code and is not modelled.
- `grand_trade_auto/general/config.py`: both readers open a file and hand it to `configparser`; file I/O and the parser are outside the model. The parsed result is the input map instead.
- `grand_trade_auto/general/exceptions.py` holds two exception classes with no behaviour.
- `tests/unit/general/test_dirs.py` compares directory paths on the real filesystem. The `dirs` module it tests is not part of this model.
- configparser internals are not modelled: case folding of option names, interpolation, and inheritance from the `DEFAULT` section. Keys are taken as already normalised.
- ParseInt: models Python's `int()` on ASCII digits with an optional sign only. Surrounding whitespace, underscores between digits and non-ASCII digits are not accepted by the model.
- GetTypeNames: Python builds a new list on every call. The model returns a value, so list identity and mutation by the caller are not captured.
