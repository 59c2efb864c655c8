/** The oracle's instruction handlers, step by step on the accounts. */
module OracleProgram {
  import opened Wrappers
  import opened Ints
  import opened Bytes
  import opened Model
  import opened Store
  import opened Oracle

  method SetExpiryPrice(db: Accounts, caller: Key, underlying: Key, expiry: i64, price: u64, a: PriceAccount)
    returns (r: Result<()>)
    modifies db`prices
    ensures Matches(Oracle.SetExpiryPrice(old(db.View()), caller, underlying, expiry, price, a), r, db.View())
    ensures r.Ok? ==> BackedByUpdate(old(db.View()), underlying, price, a)
    ensures r.Ok? ==> && caller in {db.oracle.admin, db.oracle.operator} && expiry <= db.now && price > 0
                      && PriceKey(underlying, expiry) !in old(db.prices)
                      && db.prices == old(db.prices)[PriceKey(underlying, expiry) := price]
  {
    hide ParsePrice, Normalize, ValidatePriceDeviation, ValidateConfidence, ValidateStaleness, BackedByUpdate;
    ghost var s := db.View();
    var k := PriceKey(underlying, expiry);
    :- Need(k !in db.prices, AccountInUse);
    :- Need(caller == db.oracle.admin || caller == db.oracle.operator, Unauthorized);
    :- Need(underlying in db.feeds, AccountMissing);
    :- Need(price > 0, InvalidPrice);
    :- Need(db.now >= expiry, ExpiryNotReached);
    var feed := db.feeds[underlying];
    :- Need(feed.active, FeedNotActive);
    :- Need(db.oracle.thresholdBps > 0, InvalidDeviationThreshold);
    var p :- ParsePythPriceUpdate(a, db.oracle.receiver, feed.feedId);
    :- ValidateStaleness(db.now, p.publishTime, db.oracle.maxStaleness);
    :- ValidateConfidence(p.price, p.conf, db.oracle.maxConfidenceBps);
    var reference :- Normalize(p.price, p.exponent);
    :- ValidatePriceDeviation(price, reference, db.oracle.thresholdBps);
    db.prices := db.prices[k := price];
    AcceptedPriceBound(s, caller, underlying, expiry, price, a);
    return Ok(());
  }

  method RegisterFeed(db: Accounts, signer: Key, underlying: Key, feedId: seq<byte>) returns (r: Result<()>)
    modifies db`feeds
    ensures Matches(Oracle.RegisterFeed(old(db.View()), signer, underlying, feedId), r, db.View())
  {
    var free := underlying !in db.feeds;
    :- Need(free, AccountInUse);
    :- Need(signer == db.oracle.admin, ConstraintViolated);
    db.feeds := db.feeds[underlying := Feed(feedId, true)];
    return Ok(());
  }

  method SetFeedActive(db: Accounts, signer: Key, underlying: Key, active: bool) returns (r: Result<()>)
    modifies db`feeds
    ensures Matches(Oracle.SetFeedActive(old(db.View()), signer, underlying, active), r, db.View())
  {
    var known := underlying in db.feeds;
    :- Need(known, AccountMissing);
    :- Need(signer == db.oracle.admin, ConstraintViolated);
    db.feeds := db.feeds[underlying := db.feeds[underlying].(active := active)];
    return Ok(());
  }

  method DeregisterFeed(db: Accounts, signer: Key, underlying: Key) returns (r: Result<()>)
    modifies db`feeds
    ensures Matches(Oracle.DeregisterFeed(old(db.View()), signer, underlying), r, db.View())
  {
    var known := underlying in db.feeds;
    :- Need(known, AccountMissing);
    :- Need(signer == db.oracle.admin, ConstraintViolated);
    var feed := db.feeds[underlying];
    :- Need(feed.active, FeedNotActive);
    db.feeds := db.feeds[underlying := feed.(active := false)];
    return Ok(());
  }

  method SetOperator(db: Accounts, signer: Key, operator: Key) returns (r: Result<()>)
    modifies db`oracle
    ensures Matches(Oracle.SetOperator(old(db.View()), signer, operator), r, db.View())
  {
    var config := db.oracle;
    :- Need(signer == config.admin, ConstraintViolated);
    :- Need(operator != 0, ZeroAddress);
    db.oracle := config.(operator := operator);
    return Ok(());
  }

  method TransferOwnership(db: Accounts, signer: Key, newAdmin: Key) returns (r: Result<()>)
    modifies db`oracle
    ensures Matches(Oracle.TransferOwnership(old(db.View()), signer, newAdmin), r, db.View())
  {
    var config := db.oracle;
    :- Need(signer == config.admin, ConstraintViolated);
    :- Need(newAdmin != 0, ZeroAddress);
    db.oracle := config.(pendingAdmin := newAdmin);
    return Ok(());
  }

  method AcceptOwnership(db: Accounts, signer: Key) returns (r: Result<()>)
    modifies db`oracle
    ensures Matches(Oracle.AcceptOwnership(old(db.View()), signer), r, db.View())
  {
    var config := db.oracle;
    :- Need(signer == config.pendingAdmin, NotPendingAdmin);
    db.oracle := config.(admin := config.pendingAdmin, pendingAdmin := 0);
    return Ok(());
  }

  method SetThreshold(db: Accounts, signer: Key, thresholdBps: u16) returns (r: Result<()>)
    modifies db`oracle
    ensures Matches(Oracle.SetThreshold(old(db.View()), signer, thresholdBps), r, db.View())
    ensures r.Ok? ==> db.oracle == old(db.oracle).(thresholdBps := thresholdBps) && db.oracle.thresholdBps > 0
  {
    var config := db.oracle;
    :- Need(signer == config.admin, ConstraintViolated);
    :- Need(thresholdBps > 0, InvalidDeviationThreshold);
    db.oracle := config.(thresholdBps := thresholdBps);
    return Ok(());
  }

  method SetLimits(db: Accounts, signer: Key, maxStaleness: u64, maxConfidenceBps: u16) returns (r: Result<()>)
    modifies db`oracle
    ensures Matches(Oracle.SetLimits(old(db.View()), signer, maxStaleness, maxConfidenceBps), r, db.View())
  {
    var config := db.oracle;
    :- Need(signer == config.admin, ConstraintViolated);
    db.oracle := config.(maxStaleness := maxStaleness, maxConfidenceBps := maxConfidenceBps);
    return Ok(());
  }
}
