/**
 Reading the account list and resolving an account name to its credential
 pair by a first-match scan against the lower-cased name.
 */
module Credentials {
  import opened Strings
  import opened Wrappers
  import opened Records

  /** `get_all_aws_accounts`: the configured entries, unchanged and in order. */
  function GetAllAwsAccounts(config: Config): (r: seq<Account>)
    ensures |r| == |config.awsAccounts|
    ensures forall i :: 0 <= i < |r| ==> r[i] == config.awsAccounts[i]
  {
    config.awsAccounts
  }

  /** Entry `i` is named `name` and no earlier entry is. */
  predicate IsFirstNamed(accounts: seq<Account>, name: string, i: int) {
    && 0 <= i < |accounts|
    && accounts[i].name == name
    && forall j :: 0 <= j < i ==> accounts[j].name != name
  }

  /** Some entry is named `name`. */
  predicate HasNamed(accounts: seq<Account>, name: string) {
    exists i :: 0 <= i < |accounts| && accounts[i].name == name
  }

  /** The `for account in accounts: if ...: return` scan: the position of the
      first entry named exactly `name`. */
  function FirstNamed(accounts: seq<Account>, name: string): (r: Option<nat>)
    ensures r.None? <==> !HasNamed(accounts, name)
    ensures r.Some? ==> IsFirstNamed(accounts, name, r.value)
    decreases |accounts|
  {
    if |accounts| == 0 then
      None
    else if accounts[0].name == name then
      Some(0)
    else
      match FirstNamed(accounts[1..], name)
      case None =>
        assert forall i :: 1 <= i < |accounts| ==> accounts[i] == accounts[1..][i - 1];
        None
      case Some(k) =>
        assert accounts[k + 1] == accounts[1..][k];
        assert forall j :: 1 <= j < k + 1 ==> accounts[j] == accounts[1..][j - 1];
        Some(k + 1)
  }

  /** The credential dictionary built from one entry. */
  function CredsOf(a: Account): (c: Creds) {
    Creds(a.key, a.secret)
  }

  /** `get_account_api_creds`: only the requested name is lower-cased; the
      first entry carrying that exact name supplies the key and secret, and a
      miss raises the fixed credentials message. */
  function GetAccountApiCreds(config: Config, accountName: string): (r: Result<Creds>)
    ensures r.Err? <==> !HasNamed(config.awsAccounts, Lower(accountName))
    ensures r.Err? ==> r.error == Ase(CredsMsg)
    ensures r.Ok? ==>
      exists i :: IsFirstNamed(config.awsAccounts, Lower(accountName), i)
               && r.value == CredsOf(config.awsAccounts[i])
  {
    match FirstNamed(config.awsAccounts, Lower(accountName))
    case None => Err(Ase(CredsMsg))
    case Some(i) => Ok(CredsOf(config.awsAccounts[i]))
  }

  /** The first entry with the looked-up name wins; a later entry with the
      same name is never consulted. */
  lemma FirstMatchWins(config: Config, accountName: string, i: nat)
    requires IsFirstNamed(config.awsAccounts, Lower(accountName), i)
    ensures GetAccountApiCreds(config, accountName) == Ok(CredsOf(config.awsAccounts[i]))
  {
  }

  /** Names that differ only in letter case resolve alike. */
  lemma LookupIgnoresInputCase(config: Config, a: string, b: string)
    requires Lower(a) == Lower(b)
    ensures GetAccountApiCreds(config, a) == GetAccountApiCreds(config, b)
  {
  }

  /** An entry whose configured name holds an upper-case letter can never be
      matched: dropping it leaves every lookup unchanged. */
  lemma {:induction false} UppercaseEntryNeverMatches(config: Config, i: nat, accountName: string)
    requires i < |config.awsAccounts| && HasUpper(config.awsAccounts[i].name)
    ensures GetAccountApiCreds(Config(config.awsAccounts[..i] + config.awsAccounts[i + 1..]), accountName)
         == GetAccountApiCreds(config, accountName)
  {
    var accounts := config.awsAccounts;
    var rest := accounts[..i] + accounts[i + 1..];
    var name := Lower(accountName);
    NoLowerEqualsUpper(accountName, accounts[i].name);
    // Entries before `i` keep their position in `rest`; later ones move down by one.
    assert forall j :: 0 <= j < i ==> rest[j] == accounts[j];
    assert forall j :: i < j < |accounts| ==> rest[j - 1] == accounts[j];
    if HasNamed(accounts, name) {
      var k := FirstNamed(accounts, name).value;
      assert k != i;
      var k' := if k < i then k else k - 1;
      assert rest[k'] == accounts[k];
      assert IsFirstNamed(rest, name, k') by {
        forall j | 0 <= j < k' ensures rest[j].name != name {
          if j < i {
            assert rest[j] == accounts[j];
          } else {
            assert rest[j] == accounts[j + 1];
          }
        }
      }
      FirstMatchWins(config, accountName, k);
      FirstMatchWins(Config(rest), accountName, k');
    } else {
      assert !HasNamed(rest, name) by {
        forall j | 0 <= j < |rest| ensures rest[j].name != name {
          if j < i {
            assert rest[j] == accounts[j];
          } else {
            assert rest[j] == accounts[j + 1];
          }
        }
      }
    }
  }
}
