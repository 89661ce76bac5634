/**
 * The byte-string constants of contracts.constants: operation tags (the
 * first application argument), store keys and the module names under which
 * the admin program registers application ids.  Each is spelled as its
 * identifier; only their distinctness matters (START_AUCTION is both a tag
 * and a key).  The integer constants are the symbols of Avm.IntConst.
 */
module Constants {
  import opened Avm

  // operation tags
  const SET_ROLE: Value := Bytes("SET_ROLE")
  const SET_VERIFIED_STATUS: Value := Bytes("SET_VERIFIED_STATUS")
  const ADD_MODULE: Value := Bytes("ADD_MODULE")
  const REMOVE_MODULE: Value := Bytes("REMOVE_MODULE")
  const ASSET_OPTIN: Value := Bytes("ASSET_OPTIN")
  const CHANGE_ASSET_MANAGER: Value := Bytes("CHANGE_ASSET_MANAGER")
  const CLAWBACK_ASSET: Value := Bytes("CLAWBACK_ASSET")
  const FREEZE_ASSET: Value := Bytes("FREEZE_ASSET")
  const CREATE_ASSET_APP: Value := Bytes("CREATE_ASSET_APP")
  const CHANGE_ADMIN_ID: Value := Bytes("CHANGE_ADMIN_ID")
  const OPTIN_ADMIN: Value := Bytes("OPTIN_ADMIN")
  const START_AUCTION: Value := Bytes("START_AUCTION")
  const ON_BID: Value := Bytes("ON_BID")
  const CLOSE_AUCTION: Value := Bytes("CLOSE_AUCTION")
  const REVERT_NFT: Value := Bytes("REVERT_NFT")
  const START_SELL: Value := Bytes("START_SELL")
  const PURCHASE_NFT: Value := Bytes("PURCHASE_NFT")
  const PAY_ALGO: Value := Bytes("PAY_ALGO")
  const PAY_ASSET: Value := Bytes("PAY_ASSET")
  const SET_GLOBAL: Value := Bytes("SET_GLOBAL")
  const DEL_GLOBAL: Value := Bytes("DEL_GLOBAL")
  const OPT_IN_ASSETS: Value := Bytes("OPT_IN_ASSETS")
  const EMERGENCY_WITHDRAW: Value := Bytes("EMERGENCY_WITHDRAW")
  const INCREASE_REWARDS: Value := Bytes("INCREASE_REWARDS")
  const DECREASE_REWARDS: Value := Bytes("DECREASE_REWARDS")
  const GET_PENDING_REWARDS: Value := Bytes("GET_PENDING_REWARDS")
  const CREATE_SUBSCRIPTION: Value := Bytes("CREATE_SUBSCRIPTION")
  const SUBSCRIBE: Value := Bytes("SUBSCRIBE")
  const RENEW_SUBSCRIPTION: Value := Bytes("RENEW_SUBSCRIPTION")
  const UTILITY: Value := Bytes("UTILITY")
  const CANCEL_SUBSCRIPTION: Value := Bytes("CANCEL_SUBSCRIPTION")
  const CANCEL_AND_REFUND_SUBSCRIPTION: Value := Bytes("CANCEL_AND_REFUND_SUBSCRIPTION")
  const ADMIN_CANCEL_SUBSCRIPTION: Value := Bytes("ADMIN_CANCEL_SUBSCRIPTION")
  const ADMIN_CANCEL_AND_REFUND_SUBSCRIPTION: Value := Bytes("ADMIN_CANCEL_AND_REFUND_SUBSCRIPTION")
  const FREEZE_SUBSCRIPTION: Value := Bytes("FREEZE_SUBSCRIPTION")
  const UNFREEZE_SUBSCRIPTION: Value := Bytes("UNFREEZE_SUBSCRIPTION")
  const DEPLOY_CREATOR_APP: Value := Bytes("DEPLOY_CREATOR_APP")
  const WITHDRAW_ALGOS: Value := Bytes("WITHDRAW_ALGOS")
  const WITHDRAW_TOKENS: Value := Bytes("WITHDRAW_TOKENS")
  const DEPLOY_SUBSCRIPTION_APP: Value := Bytes("DEPLOY_SUBSCRIPTION_APP")
  const INCREASE_ASSET_POOL_REWARDS: Value := Bytes("INCREASE_ASSET_POOL_REWARDS")
  const INCREASE_ALGO_POOL: Value := Bytes("INCREASE_ALGO_POOL")
  const CALCULATE_ASSET_REWARDS: Value := Bytes("CALCULATE_ASSET_REWARDS")
  const CALCULATE_ALGO_REWARDS: Value := Bytes("CALCULATE_ALGO_REWARDS")
  const WITHDRAW_ASSET: Value := Bytes("WITHDRAW_ASSET")
  const WITHDRAW_ALGO: Value := Bytes("WITHDRAW_ALGO")
  const SET_LOCAL: Value := Bytes("SET_LOCAL")
  const CHANGE_OWNERSHIP: Value := Bytes("CHANGE_OWNERSHIP")

  // store keys
  const ADMIN_ID: Value := Bytes("ADMIN_ID")
  const NEW_ADMIN_ID: Value := Bytes("NEW_ADMIN_ID")
  const OWNER: Value := Bytes("OWNER")
  const PLATFORM_FEE: Value := Bytes("PLATFORM_FEE")
  const FIRST_ADMIN: Value := Bytes("FIRST_ADMIN")
  const NIFTGEN_ASSET: Value := Bytes("NIFTGEN_ASSET")
  const USDC_ASSET_ID: Value := Bytes("USDC_ASSET_ID")
  const VERIFIED_CREATORS: Value := Bytes("VERIFIED_CREATORS")
  const ROLE: Value := Bytes("ROLE")
  const STATUS: Value := Bytes("STATUS")
  const NFT_ID: Value := Bytes("NFT_ID")
  const NFT_OWNER: Value := Bytes("NFT_OWNER")
  const NFT_CREATOR: Value := Bytes("NFT_CREATOR")
  const ROYALTY: Value := Bytes("ROYALTY")
  const CURRENT_BID: Value := Bytes("CURRENT_BID")
  const BIDDER_WINNER: Value := Bytes("BIDDER_WINNER")
  const CREATOR_ADDRESS: Value := Bytes("CREATOR_ADDRESS")
  const END_AUCTION: Value := Bytes("END_AUCTION")
  const MIN_BID_INCREMENT: Value := Bytes("MIN_BID_INCREMENT")
  const PAYMENT_OPTION: Value := Bytes("PAYMENT_OPTION")
  const START_PRICE: Value := Bytes("START_PRICE")
  const MODULE_NAME: Value := Bytes("MODULE_NAME")
  const NFT_PRICE: Value := Bytes("NFT_PRICE")
  const SUBSCRIPTION: Value := Bytes("SUBSCRIPTION")
  const SUBSCRIPTION_STATUS: Value := Bytes("SUBSCRIPTION_STATUS")
  const SUBSCRIPTION_EXPIRES_DATE: Value := Bytes("SUBSCRIPTION_EXPIRES_DATE")
  const SUBSCRIPTION_PAYMENT_TYPE: Value := Bytes("SUBSCRIPTION_PAYMENT_TYPE")
  const SUBSCRIPTION_AMOUNT_PAID: Value := Bytes("SUBSCRIPTION_AMOUNT_PAID")
  const SUBSCRIPTION_DURATION: Value := Bytes("SUBSCRIPTION_DURATION")
  const REWARDS_AMOUNT: Value := Bytes("REWARDS_AMOUNT")
  const FEES_TO_PAY: Value := Bytes("FEES_TO_PAY")
  const DAILY_DATE: Value := Bytes("DAILY_DATE")
  const DAILY_AMOUNT: Value := Bytes("DAILY_AMOUNT")
  const ALGO_BALANCE: Value := Bytes("ALGO_BALANCE")
  const WITHDRAW_ASSET_COUNTER: Value := Bytes("WITHDRAW_ASSET_COUNTER")
  const WITHDRAW_ALGO_COUNTER: Value := Bytes("WITHDRAW_ALGO_COUNTER")

  // module names registered in the admin program
  const AUCTION_MODULE: Value := Bytes("AUCTION_MODULE")
  const LIST_MODULE: Value := Bytes("LIST_MODULE")
  const REWARD_MODULE: Value := Bytes("REWARD_MODULE")
  const SUBSCRIPTION_MODULE: Value := Bytes("SUBSCRIPTION_MODULE")
  const SUBSCRIPTION_APP: Value := Bytes("SUBSCRIPTION_APP")
  const CREATOR_APP: Value := Bytes("CREATOR_APP")
  const CREATOR_POOL: Value := Bytes("CREATOR_POOL")

  /** The two payment options a sale or an auction accepts. */
  predicate IsPaymentOption(v: Value)
  {
    v == Const(ALGO) || v == Const(USDC)
  }
}
