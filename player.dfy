/**
 * The player ledger (blackJack/domain/mysql/Player.java): a tally of games,
 * wins and losses and a balance, changed in place by `recordWin` and
 * `recordLoss`.
 */
module Players {
  import opened Wrappers

  /** The store-assigned player id (a `Long`). */
  type PlayerId = nat

  /** What the player store keeps under a player id. */
  datatype PlayerRow = PlayerRow(name: string, gamesPlayed: int, wins: int, losses: int, balance: real)

  /** The games played are exactly the wins plus the losses. */
  predicate Tallied(p: PlayerRow)
  {
    p.gamesPlayed == p.wins + p.losses
  }

  /** The row `recordWin(amount)` leaves. */
  function Credited(p: PlayerRow, amount: real): (r: PlayerRow)
    ensures Tallied(p) ==> Tallied(r)
    ensures r.wins == p.wins + 1 && r.losses == p.losses && r.name == p.name
    ensures r.balance - p.balance == amount
  {
    p.(wins := p.wins + 1, gamesPlayed := p.gamesPlayed + 1, balance := p.balance + amount)
  }

  /** The row `recordLoss(amount)` leaves. */
  function Debited(p: PlayerRow, amount: real): (r: PlayerRow)
    ensures Tallied(p) ==> Tallied(r)
    ensures r.losses == p.losses + 1 && r.wins == p.wins && r.name == p.name
    ensures p.balance - r.balance == amount
  {
    p.(losses := p.losses + 1, gamesPlayed := p.gamesPlayed + 1, balance := p.balance - amount)
  }

  /**
   * Both ledger updates keep the tally, count one more game and move the
   * balance by exactly the amount, up for a win and down for a loss.
   */
  lemma LedgerKeepsTally(p: PlayerRow, amount: real)
    requires Tallied(p)
    ensures Tallied(Credited(p, amount)) && Tallied(Debited(p, amount))
    ensures Credited(p, amount).balance - p.balance == amount
    ensures p.balance - Debited(p, amount).balance == amount
    ensures Credited(p, amount).losses == p.losses && Debited(p, amount).wins == p.wins
  {
  }

  /** There is no balance check on a loss: a new player losing 10 owes 10. */
  lemma LossMayOverdraw(name: string)
    ensures Debited(PlayerRow(name, 0, 0, 0, 0.0), 10.0).balance == -10.0
  {
  }

  class Player {
    var id: Option<PlayerId>
    var name: string
    var gamesPlayed: int
    var wins: int
    var losses: int
    var balance: real

    /** `Player.of(name)`: no id yet, no games, no wins, no losses, balance 0. */
    constructor Of(name: string)
      ensures id == None && this.name == name
      ensures gamesPlayed == 0 && wins == 0 && losses == 0 && balance == 0.0
      ensures Tallied(Row())
    {
      this.id := None;
      this.name := name;
      gamesPlayed, wins, losses := 0, 0, 0;
      balance := 0.0;
    }

    /** The all-fields constructor a store read uses. */
    constructor Load(id: PlayerId, row: PlayerRow)
      ensures this.id == Some(id) && Row() == row
    {
      this.id := Some(id);
      name := row.name;
      gamesPlayed, wins, losses := row.gamesPlayed, row.wins, row.losses;
      balance := row.balance;
    }

    /** The stored form of the player. */
    function Row(): PlayerRow
      reads this
    {
      PlayerRow(name, gamesPlayed, wins, losses, balance)
    }

    /** `recordWin`: one more win and one more game, the amount added to the balance. */
    method RecordWin(amount: real)
      modifies this`wins, this`gamesPlayed, this`balance
      ensures wins == old(wins) + 1 && gamesPlayed == old(gamesPlayed) + 1
      ensures balance == old(balance) + amount
      ensures Row() == Credited(old(Row()), amount)
      ensures Tallied(old(Row())) ==> Tallied(Row())
    {
      wins := wins + 1;
      gamesPlayed := gamesPlayed + 1;
      balance := balance + amount;
    }

    /** `recordLoss`: one more loss and one more game, the amount taken off the balance. */
    method RecordLoss(amount: real)
      modifies this`losses, this`gamesPlayed, this`balance
      ensures losses == old(losses) + 1 && gamesPlayed == old(gamesPlayed) + 1
      ensures balance == old(balance) - amount
      ensures Row() == Debited(old(Row()), amount)
      ensures Tallied(old(Row())) ==> Tallied(Row())
    {
      losses := losses + 1;
      gamesPlayed := gamesPlayed + 1;
      balance := balance - amount;
    }
  }
}
