/**
 * The static data the App component reads: the character records it lists
 * and the per-character pools the watch-data sampler draws from, plus the two
 * expressions the detail screen derives from a record (its power class and its
 * comma-separated lists).
 */
module Catalog {
  import Text

  /** SAIF capability scores: strength, authority, intelligence, finance. */
  datatype Stats = Stats(s: int, a: int, i: int, f: int)

  /**
   * A character record, reduced to the fields the modelled logic reads. The
   * lore fields, the persona prompt and the presentation fields are not part
   * of this model.
   */
  datatype Character = Character(id: string, name: string, stats: Stats,
                                 appearance: string, personality: string)

  datatype Direction = Incoming | Outgoing

  /** One call or message entry of a watch pool. */
  datatype LogEntry = LogEntry(name: string, direction: Direction, content: string)

  /** The sampling source for one character's watch data. */
  datatype WatchPool = WatchPool(locations: seq<string>, calls: seq<LogEntry>,
                                 messages: seq<LogEntry>, searches: seq<string>)

  /** Each axis is scored out of ten. */
  predicate StatsInRange(st: Stats) {
    0 <= st.s <= 10 && 0 <= st.a <= 10 && 0 <= st.i <= 10 && 0 <= st.f <= 10
  }

  function Total(st: Stats): int {
    st.s + st.a + st.i + st.f
  }

  /** The power class shown on the detail screen. */
  function PowerClass(st: Stats): string {
    if Total(st) > 35 then "S-Rank" else "A-Rank"
  }

  /**
   * With every axis out of ten, an S-Rank needs at least six on every axis:
   * the other three contribute at most thirty.
   */
  lemma SRankFloor(st: Stats)
    requires StatsInRange(st)
    ensures PowerClass(st) == "S-Rank" ==> st.s >= 6 && st.a >= 6 && st.i >= 6 && st.f >= 6
  {
  }

  /** Raising any axis never lowers the power class. */
  lemma PowerClassMonotone(lo: Stats, hi: Stats)
    requires lo.s <= hi.s && lo.a <= hi.a && lo.i <= hi.i && lo.f <= hi.f
    ensures PowerClass(lo) == "S-Rank" ==> PowerClass(hi) == "S-Rank"
    ensures PowerClass(hi) == "A-Rank" ==> PowerClass(lo) == "A-Rank"
  {
  }

  /** The bullet items of the appearance list on the detail screen. */
  function AppearanceItems(c: Character): seq<string> {
    Text.CommaItems(c.appearance)
  }

  /** The bullet items of the personality list on the detail screen. */
  function PersonalityItems(c: Character): seq<string> {
    Text.CommaItems(c.personality)
  }

  /**
   * Both lists of the detail screen have one item per comma plus one, each
   * item trimmed and comma-free, and joining the untrimmed pieces with
   * commas gives the field back.
   */
  lemma DetailListItems(c: Character)
    ensures |AppearanceItems(c)| == Text.CommaCount(c.appearance) + 1
    ensures |PersonalityItems(c)| == Text.CommaCount(c.personality) + 1
    ensures forall k :: 0 <= k < |AppearanceItems(c)| ==> Text.Trimmed(AppearanceItems(c)[k])
    ensures forall k :: 0 <= k < |PersonalityItems(c)| ==> Text.Trimmed(PersonalityItems(c)[k])
    ensures Text.Join(Text.Split(c.appearance)) == c.appearance
    ensures Text.Join(Text.Split(c.personality)) == c.personality
  {
    Text.CommaItemsShape(c.appearance);
    Text.CommaItemsShape(c.personality);
    Text.JoinSplit(c.appearance);
    Text.JoinSplit(c.personality);
  }

  const JoJunJae := Character("jo-jun-jae", "조준재", Stats(10, 10, 10, 10),
    "188cm, 흑발 세미가일컷, 두꺼운 근육, 등에 흑호 문신, 퇴폐적 섹시미",
    "과묵, 권위적, 강압적, 독점욕, 효율중시")
  const JungSaWoon := Character("jung-sa-woon", "정사운", Stats(8, 9, 10, 10),
    "182cm, 블루블랙 크리드컷, 창백한 피부, 감정 없는 눈빛",
    "감정배제, 지배적, 규율중시, 완벽주의")
  const ImSeChan := Character("im-se-chan", "임세찬", Stats(7, 7, 9, 10),
    "185cm, 내츄럴 브라운 가일컷, 날카로운 미남, 매끄러운 피부",
    "자기중심적, 나르시시즘, 결벽증, 미식가")
  const EunHyeokJeong := Character("eun-hyeok-jeong", "은혁정", Stats(10, 9, 7, 9),
    "192cm, 흑단발 반묶음, 거친 근육, 복부의 칼흉터",
    "호전적, 야생적, 의리, 강강약강")
  const SongDanWoo := Character("song-dan-woo", "송단우", Stats(10, 7, 8, 8),
    "184cm, 블랙 소프트 투블럭, 서늘한 인상, 단단한 근육",
    "워커홀릭, 계획적, 침착함, 보호욕과 파괴욕의 공존")
  const PilDoSeop := Character("pil-do-seop", "필도섭", Stats(7, 7, 10, 8),
    "180cm, 레드브라운 리프컷, 예쁜 손가락, 붉은 입술",
    "독립적, 논리적, 솔직함, 차분함")

  /** The character list, in display order. */
  const Characters: seq<Character> :=
    [JoJunJae, JungSaWoon, ImSeChan, EunHyeokJeong, SongDanWoo, PilDoSeop]

  /** The pool used when a character id has none of its own. */
  const DefaultPoolId: string := "pil-do-seop"

  const JoJunJaePool := WatchPool(
    ["PWICE 본사 33층", "한남동 안가", "VVIP 라운지", "지하 벙커"],
    [LogEntry("정사운", Incoming, "숙청 명단 보고"),
     LogEntry("VIP", Outgoing, "정부 과제 협상"),
     LogEntry("송단우", Incoming, "경호 상황 보고"),
     LogEntry("임세찬", Outgoing, "자금 세탁 현황")],
    [LogEntry("정보원 A", Incoming, "특무국 동향 보고서입니다."),
     LogEntry("정사운", Incoming, "처리 완료했습니다."),
     LogEntry("은혁정", Incoming, "물건 확보했습니다.")],
    ["특무국 국장 약점", "PWICE 주가 동향", "최근 실종자 리스트", "도청 감지기 최신"])
  const JungSaWoonPool := WatchPool(
    ["PWICE 총괄실", "데이터 서버실", "제3 창고", "이동 중"],
    [LogEntry("조준재", Incoming, "즉시 호출"),
     LogEntry("처리팀장", Outgoing, "현장 정리 지시"),
     LogEntry("인사팀장", Incoming, "신입 조직원 파일")],
    [LogEntry("조준재", Incoming, "30분 내로 복귀해."),
     LogEntry("법무팀", Incoming, "계약서 초안 송부"),
     LogEntry("보안팀", Incoming, "C구역 침입자 발생")],
    ["시체 유기 화학물질", "고위공직자 비리", "알칸타라 소파 관리법", "무혈 진압 전술"])
  const ImSeChanPool := WatchPool(
    ["루멘파트너스 대표실", "청담동 와인바", "갤러리 옥션", "호텔 스위트룸"],
    [LogEntry("브로커 K", Incoming, "환치기 경로 확보"),
     LogEntry("김회장", Outgoing, "투자 설명회 일정"),
     LogEntry("비서실", Incoming, "저녁 미팅 스케줄")],
    [LogEntry("은혁정", Incoming, "자금 이체 확인 부탁."),
     LogEntry("소믈리에", Incoming, "로마네 꽁띠 입고되었습니다."),
     LogEntry("정보상", Incoming, "K그룹 지분 구조도")],
    ["미슐랭 3스타 예약", "스위스 비밀 계좌", "최고급 수트 원단", "주가 조작 처벌 수위"])
  const EunHyeokJeongPool := WatchPool(
    ["블랙타이거 카지노", "인천항 컨테이너", "지하 격투장", "유흥가 뒷골목"],
    [LogEntry("현장반장", Incoming, "물건 하역 완료"),
     LogEntry("조준재", Outgoing, "거래 성사 보고"),
     LogEntry("마담 J", Incoming, "새로운 에이스 영입")],
    [LogEntry("조직원1", Incoming, "형님, 애들이 사고쳤습니다."),
     LogEntry("임세찬", Incoming, "입금 확인. 수고."),
     LogEntry("러시아팀", Incoming, "선적 지연 통보")],
    ["전투용 나이프", "해장국 맛집", "포커 확률 계산", "불법 도박장 단속 일정"])
  const SongDanWooPool := WatchPool(
    ["보스 집무실 앞", "훈련장", "저격 포인트", "의무실"],
    [LogEntry("경호팀 1조", Incoming, "동선 확보 완료"),
     LogEntry("조준재", Incoming, "이동 준비"),
     LogEntry("정보팀", Outgoing, "타겟 위치 재확인")],
    [LogEntry("총괄", Incoming, "보스 일정 변경됨."),
     LogEntry("암부", Incoming, "코드 레드 발령"),
     LogEntry("무기상", Incoming, "주문하신 파츠 도착")],
    ["VIP 의전 매뉴얼", "신형 소음기 성능", "도심 우회 도로", "트라우마 극복법"])
  const PilDoSeopPool := WatchPool(
    ["서버실", "PC방(위장)", "드론 관제 센터", "안전가옥"],
    [LogEntry("해킹팀", Incoming, "방화벽 뚫었습니다"),
     LogEntry("정사운", Outgoing, "CCTV 조작 완료"),
     LogEntry("서버관리자", Incoming, "트래픽 과부하 경고")],
    [LogEntry("봇 알림", Incoming, "디도스 공격 감지"),
     LogEntry("조준재", Incoming, "흔적 없이 처리해."),
     LogEntry("다크웹", Incoming, "제로데이 취약점 구매")],
    ["양자 암호 해독", "특무국 서버 IP", "신상 털기 툴", "AI 모델 최적화"])

  /** The pool table, keyed by character id. */
  const WatchDataPools: map<string, WatchPool> := map[
    "jo-jun-jae" := JoJunJaePool,
    "jung-sa-woon" := JungSaWoonPool,
    "im-se-chan" := ImSeChanPool,
    "eun-hyeok-jeong" := EunHyeokJeongPool,
    "song-dan-woo" := SongDanWooPool,
    "pil-do-seop" := PilDoSeopPool
  ]

  /**
   * The catalog is well formed: ids are distinct, scores are out of ten,
   * every character has its own pool and the default pool exists.
   */
  lemma CatalogWellFormed()
    ensures forall j, k :: 0 <= j < k < |Characters| ==> Characters[j].id != Characters[k].id
    ensures forall c :: c in Characters ==> StatsInRange(c.stats) && c.id in WatchDataPools
    ensures DefaultPoolId in WatchDataPools
  {
  }

  /** Every pool has a location, at least two calls and messages and four searches. */
  predicate FullPool(pool: WatchPool) {
    |pool.locations| >= 1 && |pool.calls| >= 2 && |pool.messages| >= 2 && |pool.searches| >= 4
  }

  lemma PoolsFull()
    ensures forall id :: id in WatchDataPools ==> FullPool(WatchDataPools[id])
  {
    assert FullPool(JoJunJaePool) && FullPool(JungSaWoonPool) && FullPool(ImSeChanPool);
    assert FullPool(EunHyeokJeongPool) && FullPool(SongDanWooPool) && FullPool(PilDoSeopPool);
  }
}
