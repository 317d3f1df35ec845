/**
 The OAuth token bundle of a Yandex Direct connection: when it expires, when it is due
 for a refresh, and when its access token may still be used. Times are nanoseconds.
 */
module TokenBundle {

  const SECOND: int := 1_000_000_000
  const DAY: int := 24 * 60 * 60 * SECOND
  const REFRESH_INTERVAL: int := 90 * DAY
  const REFRESH_SKEW: int := 5 * 60 * SECOND
  const FALLBACK_SKEW: int := 30 * SECOND
  const MAX_LIFETIME: int := 100 * 365 * DAY
  const TWO63: int := 0x8000_0000_0000_0000
  const TWO64: int := 0x1_0000_0000_0000_0000

  predicate FitsInt64(x: int) { -TWO63 <= x < TWO63 }

  /** What a 64-bit signed result keeps of x. */
  function Wrap64(x: int): (r: int)
    ensures FitsInt64(r)
  {
    (x + TWO63) % TWO64 - TWO63
  }

  lemma WrapKeeps(x: int)
    requires FitsInt64(x)
    ensures Wrap64(x) == x
  {
  }

  /** The provider's answer to a code exchange or a refresh; tokens are already trimmed. */
  datatype Grant = Grant(access: string, refresh: string, expiresIn: int)

  datatype Bundle = Bundle(
    access: string, refresh: string, expiresAt: int, refreshAfter: int, refreshedAt: int, legacy: bool)

  datatype Result<T> = Ok(value: T) | Incomplete

  predicate Complete(g: Grant) {
    g.access != "" && g.refresh != "" && g.expiresIn > 0
  }

  function Lifetime(expiresIn: int): int {
    if expiresIn <= MAX_LIFETIME / SECOND then Wrap64(expiresIn * SECOND) else MAX_LIFETIME
  }

  /** newDirectTokenBundle */
  function NewBundle(now: int, g: Grant): Result<Bundle> {
    if !Complete(g) then Incomplete
    else
      var expiresAt := now + Lifetime(g.expiresIn);
      var early := expiresAt - REFRESH_SKEW;
      var capped := if early > now + REFRESH_INTERVAL then now + REFRESH_INTERVAL else early;
      Ok(Bundle(g.access, g.refresh, expiresAt, if capped < now then now else capped, now, false))
  }

  predicate Due(b: Bundle, at: int) { at >= b.refreshAfter }

  /** directTokenBundleUsable */
  predicate Usable(b: Bundle, at: int) {
    b.access != "" && (b.legacy || b.expiresAt > at)
  }

  /** The multiplication to nanoseconds never wraps, and a century of 36500 days is the cap. */
  lemma LifetimeIsExact(expiresIn: int)
    requires 0 < expiresIn < TWO63
    ensures Lifetime(expiresIn) == (if expiresIn <= 3_153_600_000 then expiresIn else 3_153_600_000) * 1_000_000_000
    ensures 0 < Lifetime(expiresIn) <= MAX_LIFETIME && FitsInt64(Lifetime(expiresIn))
  {
    if expiresIn <= MAX_LIFETIME / SECOND {
      WrapKeeps(expiresIn * SECOND);
    }
  }

  /** A bundle is made exactly of a complete grant; it is due for a refresh no later than it
      expires: from five minutes before expiry or 90 days after it was made, whichever is first. */
  lemma NewBundleIsTimely(now: int, g: Grant)
    requires FitsInt64(g.expiresIn)
    ensures NewBundle(now, g).Ok? <==> g.access != "" && g.refresh != "" && g.expiresIn > 0
    ensures NewBundle(now, g).Ok? ==>
              var b := NewBundle(now, g).value;
              && now <= b.refreshAfter <= b.expiresAt && now < b.expiresAt <= now + MAX_LIFETIME
              && Usable(b, now) && !b.legacy && b.access == g.access && b.refresh == g.refresh && b.refreshedAt == now
              && b.expiresAt == now + Lifetime(g.expiresIn)
    ensures NewBundle(now, g).Ok? ==>
              var b := NewBundle(now, g).value;
              forall t :: Due(b, t) <==>
                t >= now && (t >= now + 7_776_000 * 1_000_000_000 || t >= b.expiresAt - 300 * 1_000_000_000)
  {
    if Complete(g) { LifetimeIsExact(g.expiresIn); }
  }

  /** The branch for a bundle that expired before its refresh was due is dead for such bundles. */
  lemma NeverExpiresBeforeDue(made: int, g: Grant, now: int)
    requires FitsInt64(g.expiresIn) && NewBundle(made, g).Ok?
    requires !Due(NewBundle(made, g).value, now)
    ensures Usable(NewBundle(made, g).value, now)
  {
    NewBundleIsTimely(made, g);
  }
}
