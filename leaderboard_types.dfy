/** The leaderboard records the client hooks exchange
    (src/types/leaderboard.ts), reduced to the fields the hooks read or
    build. `me` is the `me === true` test: an entry without the field
    counts as `false`. */
module LeaderboardTypes {
  import opened Wrappers

  datatype Vip = Vip(id: int, name: string, level: int)

  datatype Player = Player(id: int, uuid: string, username: string, avatarUrl: Option<string>, vip: Option<Vip>)

  datatype Prize = Prize(kind: string, amount: string, currencyCode: string)

  datatype Currency = Currency(code: string, symbol: string)

  datatype Entry = Entry(rank: int, player: Player, prize: Prize, value: string, currency: Currency,
                         mechanicType: int, mechanicTypeName: string, me: bool)
}
