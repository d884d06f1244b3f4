/** core/models.py: the soft-delete flags a model may inherit, and the
    key/value table `ConfigurationSettings` with its `get_value` and
    `set_value` class methods. */
module CoreModels {
  import opened Common

  // ---------------------------------------------------------------------------
  // SoftDeleteModel
  // ---------------------------------------------------------------------------

  /** The three deletion fields of a row, read together. */
  datatype DeletionFlags = DeletionFlags(isDeleted: bool, deletedAt: Option<Moment>, deletedBy: Option<UserId>)

  /** The flags of a row that was never deleted (the field defaults). */
  const Live := DeletionFlags(false, None, None)

  /** A row of a model that inherits `SoftDeleteModel`. */
  class SoftDeletable {
    var isDeleted: bool
    var deletedAt: Option<Moment>
    var deletedBy: Option<UserId>

    function Flags(): DeletionFlags
      reads this
    {
      DeletionFlags(isDeleted, deletedAt, deletedBy)
    }

    constructor ()
      ensures Flags() == Live
    {
      isDeleted, deletedAt, deletedBy := false, None, None;
    }

    /** `soft_delete(user)`: marks the row deleted, now, by `user`. */
    method SoftDelete(user: Option<UserId>, now: Moment)
      modifies this
      ensures Flags() == DeletionFlags(true, Some(now), user)
    {
      isDeleted := true;
      deletedAt := Some(now);
      deletedBy := user;
    }

    /** `restore()`: the flags return to those of a row never deleted. */
    method Restore()
      modifies this
      ensures Flags() == Live
    {
      isDeleted := false;
      deletedAt := None;
      deletedBy := None;
    }
  }

  // ---------------------------------------------------------------------------
  // ConfigurationSettings
  // ---------------------------------------------------------------------------

  /** The columns of one setting besides its key. */
  datatype ConfigRow = ConfigRow(value: string, description: string, isActive: bool, updatedBy: Option<UserId>)

  /** The table, keyed by the unique `key` column: a key has at most one row. */
  type ConfigRows = map<string, ConfigRow>

  /** `get_value(key, default)`: the value of the active row with that key,
      and `default` when there is none or that row is inactive. */
  function GetValueIn(rows: ConfigRows, key: string, default: Option<string>): (r: Option<string>)
  {
    if key in rows && rows[key].isActive then Some(rows[key].value) else default
  }

  /** `set_value(key, value, description, user)`: `get_or_create` with the
      given columns as defaults, then, for an existing row, the three columns
      overwritten; `is_active` is left as it was. */
  function SetValueIn(rows: ConfigRows, key: string, value: string, description: string, user: Option<UserId>): (r: ConfigRows)
  {
    if key in rows then
      rows[key := rows[key].(value := value, description := description, updatedBy := user)]
    else
      rows[key := ConfigRow(value, description, true, user)]
  }

  /** After `set_value`, the key has one row holding the new columns; it is
      active when it was created now or was active before; no other key's row
      changes. */
  lemma SetValueRows(rows: ConfigRows, key: string, value: string, description: string, user: Option<UserId>)
    ensures var r := SetValueIn(rows, key, value, description, user);
      && r.Keys == rows.Keys + {key}
      && r[key] == ConfigRow(value, description, key !in rows || rows[key].isActive, user)
      && forall k :: k in rows && k != key ==> r[k] == rows[k]
  {
  }

  /** Reading a key back after setting it gives the new value, except on a
      key whose row exists and is inactive: that keeps answering the default. */
  lemma GetAfterSet(rows: ConfigRows, key: string, value: string, description: string,
                    user: Option<UserId>, default: Option<string>)
    ensures GetValueIn(SetValueIn(rows, key, value, description, user), key, default)
         == if key in rows && !rows[key].isActive then default else Some(value)
  {
  }

  /** Setting one key leaves every other key's value as it was. */
  lemma SetKeepsOtherKeys(rows: ConfigRows, key: string, value: string, description: string,
                          user: Option<UserId>, other: string, default: Option<string>)
    requires other != key
    ensures GetValueIn(SetValueIn(rows, key, value, description, user), other, default)
         == GetValueIn(rows, other, default)
  {
  }

  /** Two `set_value` calls on one key leave what the second alone would. */
  lemma SetTwiceIsSetOnce(rows: ConfigRows, key: string, v1: string, d1: string, u1: Option<UserId>,
                          v2: string, d2: string, u2: Option<UserId>)
    ensures SetValueIn(SetValueIn(rows, key, v1, d1, u1), key, v2, d2, u2)
         == SetValueIn(rows, key, v2, d2, u2)
  {
  }

  /** The `ConfigurationSettings` table. */
  class ConfigTable {
    var rows: ConfigRows

    constructor ()
      ensures rows == map[]
    {
      rows := map[];
    }

    function GetValue(key: string, default: Option<string>): Option<string>
      reads this
    {
      GetValueIn(rows, key, default)
    }

    /** `set_value`, returning the saved row. */
    method SetValue(key: string, value: string, description: string, user: Option<UserId>)
      returns (setting: ConfigRow)
      modifies this
      ensures rows == SetValueIn(old(rows), key, value, description, user)
      ensures key in rows && setting == rows[key]
      ensures GetValue(key, None) == if key in old(rows) && !old(rows)[key].isActive then None else Some(value)
    {
      if key in rows {
        setting := rows[key].(value := value, description := description, updatedBy := user);
      } else {
        setting := ConfigRow(value, description, true, user);
      }
      rows := rows[key := setting];
    }
  }
}
