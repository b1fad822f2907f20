/**
 * `SQLBuilder`: a query text and its argument list, both only ever
 * appended to.
 */
module SqlBuilder {
  import opened Wrappers
  import opened DashboardPermissions

  class SQLBuilder {
    var sql: string
    var params: seq<Arg>

    constructor()
      ensures sql == "" && params == []
    {
      sql := "";
      params := [];
    }

    /** `Write(sql, params...)`: append the text, then the arguments. */
    method Write(text: string, args: seq<Arg>)
      modifies this
      ensures sql == old(sql) + text
      ensures params == old(params) + args
    {
      sql := sql + text;
      if |args| > 0 {
        params := params + args;
      }
    }

    function GetSQLString(): string
      reads this
    {
      sql
    }

    function GetParams(): seq<Arg>
      reads this
    {
      params
    }

    /** `AddParams(params...)`: append arguments, the text unchanged. */
    method AddParams(args: seq<Arg>)
      modifies this
      ensures params == old(params) + args
      ensures sql == old(sql)
    {
      params := params + args;
    }

    /**
     * `WriteDashboardPermissionFilter(user, permission)`: " AND " and the
     * permission filter's fragment, then its arguments.
     */
    method WriteDashboardPermissionFilter(user: Option<SignedInUser>, permission: int, dashWildcards: set<string>,
                                          folderWildcards: set<string>, roles: RolesFilter)
      modifies this
      ensures var w := WhereOf(NewFilter(user, permission), dashWildcards, folderWildcards, roles);
        sql == old(sql) + " AND " + w.0 && params == old(params) + w.1
    {
      var filter := NewFilter(user, permission);
      var text, args := Where(filter, dashWildcards, folderWildcards, roles);
      sql := sql + " AND " + text;
      params := params + args;
    }
  }
}
